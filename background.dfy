/** The service worker's background alarm table: a map from alarm id to the
    scheduled minute of the day, the sound, the moment of scheduling and a
    one-shot `triggered` flag; the messages that edit it, and the periodic
    sweep that fires due alarms once and evicts stale entries. */
module Background {
  import opened JsValues
  import TimeFormat

  /** `{time, sound, date, triggered}`: `time` is the minute of the day as the
      client computed it (NaN when its HH:MM did not parse), `dateMs` the
      moment of scheduling in milliseconds. */
  datatype Entry = Entry(time: Num, sound: string, dateMs: int, triggered: bool)

  /** The messages the table reacts to; every other message type is OtherMessage. */
  datatype Message =
    | ScheduleAlarm(alarmId: string, time: Num, sound: string, enabled: bool)
    | CancelAlarm(alarmId: string)
    | OtherMessage

  /** `{ success: true }`, posted on the reply port */
  datatype Reply = Success

  /** A shown notification: the alarm's id, its `HH:MM` and its sound */
  datatype Notification = Notification(alarmId: string, clock: string, sound: string)

  /** 24 hours in milliseconds */
  const DayMs: int := 24 * 60 * 60 * 1000

  /** The message handler's effect on the table, as a map */
  function Apply(table: map<string, Entry>, msg: Message, nowMs: int): (r: map<string, Entry>)
    ensures msg.ScheduleAlarm? && msg.enabled ==> r == table[msg.alarmId := Entry(msg.time, msg.sound, nowMs, false)]
    ensures (msg.ScheduleAlarm? && !msg.enabled) || msg.CancelAlarm? ==> r == table - {msg.alarmId}
    ensures msg.OtherMessage? ==> r == table
  {
    match msg
    case ScheduleAlarm(id, time, sound, enabled) =>
      if enabled then table[id := Entry(time, sound, nowMs, false)] else table - {id}
    case CancelAlarm(id) => table - {id}
    case OtherMessage => table
  }

  /** The reply: both alarm messages answer success whenever a reply port is given */
  function ReplyTo(msg: Message, hasPort: bool): (r: Option<Reply>)
    ensures r.Some? <==> hasPort && !msg.OtherMessage?
  {
    if hasPort && !msg.OtherMessage? then Some(Success) else None
  }

  /** Cancelling removes the one id and leaves every other entry as it was;
      cancelling an absent id changes nothing. */
  lemma CancelOnlyThat(table: map<string, Entry>, id: string, nowMs: int)
    ensures var r := Apply(table, CancelAlarm(id), nowMs);
      && id !in r
      && (forall other :: other != id ==> (other in r <==> other in table))
      && (forall other :: other in r ==> r[other] == table[other])
      && (id !in table ==> r == table)
  {
  }

  /** Scheduling and then cancelling the same id forgets it, whatever was there before */
  lemma ScheduleThenCancel(table: map<string, Entry>, id: string, time: Num, sound: string, nowMs: int, laterMs: int)
    ensures Apply(Apply(table, ScheduleAlarm(id, time, sound, true), nowMs), CancelAlarm(id), laterMs) == table - {id}
  {
  }

  /** Scheduling twice keeps only the latest request, re-armed */
  lemma RescheduleOverwrites(table: map<string, Entry>, id: string, t1: Num, s1: string, t2: Num, s2: string, ms1: int, ms2: int)
    ensures var r := Apply(Apply(table, ScheduleAlarm(id, t1, s1, true), ms1), ScheduleAlarm(id, t2, s2, true), ms2);
      r == table[id := Entry(t2, s2, ms2, false)] && !r[id].triggered
  {
  }

  /** An entry fires when its minute is the current one and it has not fired yet */
  predicate Fires(e: Entry, nowMinutes: int) {
    e.time == Int(nowMinutes) && !e.triggered
  }

  /** The notification's `HH:MM`: `Math.floor(time / 60)` and `time % 60`, each padded */
  function ClockOf(time: int): string {
    PadStart2(time / 60) + ":" + PadStart2(TimeFormat.JsRem(time, 60))
  }

  /** The notification of an entry */
  function NoteOf(id: string, e: Entry, nowMinutes: int): (n: Notification)
    requires Fires(e, nowMinutes)
    ensures n.alarmId == id && n.sound != ""
  {
    Notification(id, ClockOf(e.time.v), if e.sound != "" then e.sound else "beep")
  }

  /** The table and the notifications shown, part way through the first sweep */
  datatype Sweep = Sweep(table: map<string, Entry>, notes: seq<Notification>)

  /** One iteration of the first `forEach`: a due entry is notified and marked triggered */
  function FireAt(s: Sweep, id: string, nowMinutes: int): (r: Sweep)
    ensures r.table.Keys == s.table.Keys
  {
    if id in s.table && Fires(s.table[id], nowMinutes) then
      Sweep(s.table[id := s.table[id].(triggered := true)], s.notes + [NoteOf(id, s.table[id], nowMinutes)])
    else s
  }

  /** The first `forEach` after its first `n` iterations over `order` */
  function FirstSweep(table: map<string, Entry>, order: seq<string>, n: nat, nowMinutes: int): (r: Sweep)
    requires n <= |order|
    ensures r.table.Keys == table.Keys
    decreases n
  {
    if n == 0 then Sweep(table, [])
    else FireAt(FirstSweep(table, order, n - 1, nowMinutes), order[n - 1], nowMinutes)
  }

  /** One more iteration of the first sweep visits the next id */
  lemma FirstSweepStep(table: map<string, Entry>, order: seq<string>, i: nat, nowMinutes: int)
    requires i < |order|
    ensures FirstSweep(table, order, i + 1, nowMinutes) == FireAt(FirstSweep(table, order, i, nowMinutes), order[i], nowMinutes)
  {
  }

  /** The id visited at step `i` is still a key of the table */
  lemma FirstSweepVisits(s: Store, i: nat, nowMinutes: int)
    requires Coherent(s) && i < |s.order|
    ensures s.order[i] in FirstSweep(s.entries, s.order, i, nowMinutes).table
  {
    assert s.order[i] in s.order;
  }

  /** An entry after the first sweep: marked triggered when it fired */
  function MarkEntry(e: Entry, nowMinutes: int): (r: Entry)
    ensures r.triggered <==> e.triggered || Fires(e, nowMinutes)
    ensures r.(triggered := e.triggered) == e
  {
    if Fires(e, nowMinutes) then e.(triggered := true) else e
  }

  /** The table after the first sweep: every firing entry is marked triggered */
  function Mark(table: map<string, Entry>, nowMinutes: int): (r: map<string, Entry>)
    ensures r.Keys == table.Keys
  {
    map id | id in table :: MarkEntry(table[id], nowMinutes)
  }

  /** The table once the entries of `ids` have been visited */
  function MarkAmong(table: map<string, Entry>, ids: seq<string>, nowMinutes: int): (r: map<string, Entry>)
    ensures r.Keys == table.Keys
  {
    map id | id in table :: if id in ids then MarkEntry(table[id], nowMinutes) else table[id]
  }

  /** Visiting one more id marks its entry when it is due */
  lemma MarkAmongStep(table: map<string, Entry>, before: seq<string>, id: string, nowMinutes: int)
    requires id !in before
    ensures var cur := MarkAmong(table, before, nowMinutes);
      MarkAmong(table, before + [id], nowMinutes)
        == if id in table && Fires(table[id], nowMinutes) then cur[id := MarkEntry(table[id], nowMinutes)] else cur
  {
  }

  /** After `n` iterations, exactly the entries of the first `n` ids are marked */
  lemma {:induction false} FirstSweepMarks(table: map<string, Entry>, order: seq<string>, n: nat, nowMinutes: int)
    requires n <= |order| && Distinct(order)
    ensures FirstSweep(table, order, n, nowMinutes).table == MarkAmong(table, order[..n], nowMinutes)
  {
    if n == 0 {
      assert order[..0] == [];
    } else {
      var before, id := order[..n - 1], order[n - 1];
      FirstSweepMarks(table, order, n - 1, nowMinutes);
      assert id !in before by {
        DistinctSplit(order, n - 1);
      }
      MarkAmongStep(table, before, id, nowMinutes);
      assert order[..n] == before + [id];
    }
  }

  /** Each id of the first `n` is notified iff its entry was due; no other id is */
  lemma {:induction false} FirstSweepNotes(table: map<string, Entry>, order: seq<string>, n: nat, nowMinutes: int, id: string)
    requires n <= |order| && Distinct(order)
    ensures (exists note :: note in FirstSweep(table, order, n, nowMinutes).notes && note.alarmId == id)
        <==> id in order[..n] && id in table && Fires(table[id], nowMinutes)
  {
    if n > 0 {
      var before, last := order[..n - 1], order[n - 1];
      var s := FirstSweep(table, order, n - 1, nowMinutes);
      FirstSweepNotes(table, order, n - 1, nowMinutes, id);
      FirstSweepMarks(table, order, n - 1, nowMinutes);
      assert order[..n] == before + [last];
      DistinctSplit(order, n - 1);
      if last in table {
        assert s.table[last] == table[last];
      }
      if id == last && id in table && Fires(table[id], nowMinutes) {
        assert NoteOf(id, table[id], nowMinutes) in FirstSweep(table, order, n, nowMinutes).notes;
      }
    }
  }

  /** A sweep over a table where nothing is due changes nothing and shows nothing */
  lemma {:induction false} FirstSweepQuiet(table: map<string, Entry>, order: seq<string>, n: nat, nowMinutes: int)
    requires n <= |order|
    requires forall id :: id in table ==> !Fires(table[id], nowMinutes)
    ensures FirstSweep(table, order, n, nowMinutes) == Sweep(table, [])
  {
    if n > 0 {
      FirstSweepQuiet(table, order, n - 1, nowMinutes);
    }
  }

  /** After the first sweep nothing in the table is due in the same minute */
  lemma MarkedQuiet(table: map<string, Entry>, nowMinutes: int)
    ensures forall id :: id in Mark(table, nowMinutes) ==> !Fires(Mark(table, nowMinutes)[id], nowMinutes)
  {
    forall id | id in Mark(table, nowMinutes)
      ensures !Fires(Mark(table, nowMinutes)[id], nowMinutes)
    {
      var e := table[id];
      var r := MarkEntry(e, nowMinutes);
      assert Mark(table, nowMinutes)[id] == r;
      if !Fires(e, nowMinutes) && !e.triggered {
        assert r == r.(triggered := e.triggered);
      }
    }
  }

  /** A second sweep in the same minute fires nothing: every entry the first
      one fired is now triggered, and eviction only removes entries. */
  lemma SecondSweepSilent(table: map<string, Entry>, order: seq<string>, nowMinutes: int, cutoffMs: int)
    ensures FirstSweep(Evict(Mark(table, nowMinutes), cutoffMs), order, |order|, nowMinutes).notes == []
  {
    MarkedQuiet(table, nowMinutes);
    FirstSweepQuiet(Evict(Mark(table, nowMinutes), cutoffMs), order, |order|, nowMinutes);
  }

  /** The table after the eviction pass: entries scheduled before `cutoffMs` are gone */
  function Evict(table: map<string, Entry>, cutoffMs: int): (r: map<string, Entry>)
    ensures forall id {:trigger id in r} :: id in r <==> id in table && table[id].dateMs >= cutoffMs
    ensures forall id :: id in r ==> r[id] == table[id]
  {
    map id | id in table && table[id].dateMs >= cutoffMs :: table[id]
  }

  /** The ids of `order` that survive eviction, in order */
  function Kept(table: map<string, Entry>, order: seq<string>, cutoffMs: int): (r: seq<string>)
    ensures forall id {:trigger id in r} :: id in r <==> id in order && id in table && table[id].dateMs >= cutoffMs
  {
    if order == [] then []
    else
      var id := order[|order| - 1];
      Kept(table, order[..|order| - 1], cutoffMs) + (if id in table && table[id].dateMs >= cutoffMs then [id] else [])
  }

  /** The worker's table as values: its keys in insertion order and its entries */
  datatype Store = Store(order: seq<string>, entries: map<string, Entry>)

  /** The second `forEach` after its first `n` iterations over `keys`: each
      visited entry scheduled before `cutoffMs` is deleted */
  function Eviction(s: Store, keys: seq<string>, n: nat, cutoffMs: int): Store
    requires n <= |keys|
    decreases n
  {
    if n == 0 then s
    else
      var t, id := Eviction(s, keys, n - 1, cutoffMs), keys[n - 1];
      if id in t.entries && t.entries[id].dateMs < cutoffMs then Store(Without(t.order, id), t.entries - {id}) else t
  }

  /** One more iteration of the eviction pass visits the next key */
  lemma EvictionStep(s: Store, keys: seq<string>, n: nat, cutoffMs: int)
    requires 0 < n <= |keys|
    ensures var t, id := Eviction(s, keys, n - 1, cutoffMs), keys[n - 1];
      Eviction(s, keys, n, cutoffMs)
        == if id in t.entries && t.entries[id].dateMs < cutoffMs then Store(Without(t.order, id), t.entries - {id}) else t
  {
  }

  /** The entries once those of `ids` have been visited */
  function EvictAmong(table: map<string, Entry>, ids: seq<string>, cutoffMs: int): (r: map<string, Entry>)
    ensures forall id {:trigger id in r} :: id in r <==> id in table && (id in ids ==> table[id].dateMs >= cutoffMs)
  {
    map id | id in table && (id in ids ==> table[id].dateMs >= cutoffMs) :: table[id]
  }

  /** A well-formed table: no key twice, and the keys are exactly the entries' ids */
  ghost predicate Coherent(s: Store) {
    Distinct(s.order) && forall id :: id in s.entries <==> id in s.order
  }

  /** Every listed key has an entry */
  ghost predicate Listed(s: Store) {
    forall i :: 0 <= i < |s.order| ==> s.order[i] in s.entries
  }

  /** A well-formed table lists each key once, with an entry */
  lemma CoherentListed(s: Store)
    requires Coherent(s)
    ensures Distinct(s.order) && Listed(s)
  {
  }

  /** One iteration of the eviction pass, on the order of the keys */
  lemma OrderStep(e: map<string, Entry>, keys: seq<string>, n: nat, cutoffMs: int)
    requires Distinct(keys) && 0 < n <= |keys| && keys[n - 1] in e
    ensures var cur, id := Kept(e, keys[..n - 1], cutoffMs) + keys[n - 1..], keys[n - 1];
      (if id in e && e[id].dateMs < cutoffMs then Without(cur, id) else cur) == Kept(e, keys[..n], cutoffMs) + keys[n..]
  {
    var before, id, after := keys[..n - 1], keys[n - 1], keys[n..];
    var kept := Kept(e, before, cutoffMs);
    assert keys[n - 1..] == [id] + after;
    assert keys == before + [id] + after;
    assert keys[..n] == before + [id] && (before + [id])[..n - 1] == before;
    DistinctMiddle(before, id, after);
    if id in e && e[id].dateMs < cutoffMs {
      assert kept + keys[n - 1..] == kept + [id] + after;
      WithoutMiddle(kept, id, after);
      assert Kept(e, keys[..n], cutoffMs) == kept + [];
    } else {
      assert Kept(e, keys[..n], cutoffMs) == kept + [id];
      assert kept + [id] + after == kept + ([id] + after);
    }
  }

  /** One iteration of the eviction pass, on the entries */
  lemma EntriesStep(e: map<string, Entry>, before: seq<string>, id: string, cutoffMs: int)
    ensures var cur := EvictAmong(e, before, cutoffMs);
      (if id in e && e[id].dateMs < cutoffMs then cur - {id} else cur) == EvictAmong(e, before + [id], cutoffMs)
  {
  }

  /** The state the eviction pass reaches once the first `n` keys are visited */
  function Evicted(e: map<string, Entry>, keys: seq<string>, n: nat, cutoffMs: int): Store
    requires n <= |keys|
  {
    Store(Kept(e, keys[..n], cutoffMs) + keys[n..], EvictAmong(e, keys[..n], cutoffMs))
  }

  /** Visiting key `n - 1` from the state after `n - 1` keys gives the state after `n` keys */
  lemma EvictionNext(e: map<string, Entry>, keys: seq<string>, n: nat, cutoffMs: int)
    requires Distinct(keys) && 0 < n <= |keys| && keys[n - 1] in e
    ensures var t, id := Evicted(e, keys, n - 1, cutoffMs), keys[n - 1];
      (if id in t.entries && t.entries[id].dateMs < cutoffMs then Store(Without(t.order, id), t.entries - {id}) else t)
        == Evicted(e, keys, n, cutoffMs)
  {
    var before, id := keys[..n - 1], keys[n - 1];
    var t := Evicted(e, keys, n - 1, cutoffMs);
    assert id !in before by {
      DistinctSplit(keys, n - 1);
    }
    assert id in t.entries && t.entries[id] == e[id];
    assert keys[..n] == before + [id];
    OrderStep(e, keys, n, cutoffMs);
    EntriesStep(e, before, id, cutoffMs);
  }

  /** After `n` iterations, the visited keys that survive are kept in order ahead
      of the unvisited ones, and exactly the stale visited entries are gone */
  lemma {:induction false} EvictionSteps(s: Store, n: nat, cutoffMs: int)
    requires Distinct(s.order) && Listed(s) && n <= |s.order|
    ensures Eviction(s, s.order, n, cutoffMs) == Evicted(s.entries, s.order, n, cutoffMs)
  {
    if n == 0 {
      assert s.order[..0] == [] && s.order[0..] == s.order;
      assert EvictAmong(s.entries, [], cutoffMs) == s.entries;
    } else {
      EvictionSteps(s, n - 1, cutoffMs);
      EvictionStep(s, s.order, n, cutoffMs);
      EvictionNext(s.entries, s.order, n, cutoffMs);
    }
  }

  /** The whole eviction pass keeps the surviving keys in order and drops exactly the stale entries */
  lemma EvictionEnds(s: Store, cutoffMs: int)
    requires Coherent(s)
    ensures Eviction(s, s.order, |s.order|, cutoffMs) == Store(Kept(s.entries, s.order, cutoffMs), Evict(s.entries, cutoffMs))
  {
    CoherentListed(s);
    EvictionSteps(s, |s.order|, cutoffMs);
    assert s.order[..|s.order|] == s.order && s.order[|s.order|..] == [];
    assert EvictAmong(s.entries, s.order, cutoffMs) == Evict(s.entries, cutoffMs);
  }

  /** The whole eviction pass leaves a well-formed table */
  lemma EvictionCoherent(s: Store, cutoffMs: int)
    requires Coherent(s)
    ensures Coherent(Eviction(s, s.order, |s.order|, cutoffMs))
  {
    EvictionEnds(s, cutoffMs);
    KeptDistinct(s.entries, s.order, cutoffMs);
  }

  /** Deleting a key leaves a well-formed table */
  lemma DeleteCoherent(s: Store, id: string)
    requires Coherent(s)
    ensures Coherent(Store(Without(s.order, id), s.entries - {id}))
  {
    WithoutDistinct(s.order, id);
  }

  /** Replacing entries without changing the keys leaves a well-formed table */
  lemma SameKeysCoherent(s: Store, entries: map<string, Entry>)
    requires Coherent(s) && entries.Keys == s.entries.Keys
    ensures Coherent(Store(s.order, entries))
  {
  }

  /** The key visited at step `n` is still in the table when it is visited */
  lemma EvictionReaches(s: Store, n: nat, cutoffMs: int)
    requires Coherent(s) && n < |s.order|
    ensures s.order[n] in Eviction(s, s.order, n, cutoffMs).entries
  {
    CoherentListed(s);
    EvictionSteps(s, n, cutoffMs);
    DistinctSplit(s.order, n);
  }

  /** The whole first sweep marks every entry that was due and notifies exactly those */
  lemma FirstSweepEnds(s: Store, nowMinutes: int)
    requires Coherent(s)
    ensures FirstSweep(s.entries, s.order, |s.order|, nowMinutes).table == Mark(s.entries, nowMinutes)
  {
    FirstSweepMarks(s.entries, s.order, |s.order|, nowMinutes);
    assert s.order[..|s.order|] == s.order;
    assert MarkAmong(s.entries, s.order, nowMinutes) == Mark(s.entries, nowMinutes);
  }

  /** The minute the client sends for `HH:MM` (see TimeFormat.AlarmKeyMinutes)
      comes back as the same `HH:MM` in the notification. */
  lemma NotificationShowsAlarmKey(h: nat, m: nat)
    requires h < 24 && m < 60
    ensures ClockOf(h * 60 + m) == TimeFormat.AlarmKey(h, m)
  {
    var t := h * 60 + m;
    assert t / 60 == h && t % 60 == m by {
      TimeFormat.DivModUnique(t, 60, h, m);
    }
    assert PadStart2(t / 60) == Pad2(h) && PadStart2(TimeFormat.JsRem(t, 60)) == Pad2(m);
  }

  /** The fired notifications show a valid time of day */
  lemma NotificationClockRange(time: int)
    requires 0 <= time < 24 * 60
    ensures ClockOf(time) == TimeFormat.AlarmKey(time / 60, time % 60)
    ensures time / 60 < 24 && time % 60 < 60
  {
  }

  /** No id occurs twice in the list */
  predicate Distinct(s: seq<string>) {
    s == [] || (s[0] !in s[1..] && Distinct(s[1..]))
  }

  lemma DistinctCons(x: string, s: seq<string>)
    ensures Distinct([x] + s) <==> x !in s && Distinct(s)
  {
    assert ([x] + s)[1..] == s;
  }

  /** `s` without the element `x` */
  function Without(s: seq<string>, x: string): (r: seq<string>)
    ensures forall y {:trigger y in r} :: y in r <==> y in s && y != x
  {
    if s == [] then []
    else (if s[0] == x then [] else [s[0]]) + Without(s[1..], x)
  }

  /** Removing an element keeps a list free of repetitions */
  lemma {:induction false} WithoutDistinct(s: seq<string>, x: string)
    requires Distinct(s)
    ensures Distinct(Without(s, x))
  {
    if s != [] {
      assert s == [s[0]] + s[1..];
      DistinctCons(s[0], s[1..]);
      WithoutDistinct(s[1..], x);
      if s[0] != x {
        assert Without(s, x) == [s[0]] + Without(s[1..], x);
        DistinctCons(s[0], Without(s[1..], x));
      } else {
        assert Without(s, x) == Without(s[1..], x);
      }
    }
  }

  /** Removing the one occurrence of `x` from the middle of a list */
  lemma {:induction false} WithoutMiddle(a: seq<string>, x: string, b: seq<string>)
    requires x !in a && x !in b
    ensures Without(a + [x] + b, x) == a + b
  {
    var s := a + [x] + b;
    if a == [] {
      assert s == [x] + b && s[1..] == b;
      WithoutAbsent(b, x);
    } else {
      assert s[0] == a[0] && s[1..] == a[1..] + [x] + b;
      WithoutMiddle(a[1..], x, b);
      assert a + b == [a[0]] + (a[1..] + b);
    }
  }

  lemma {:induction false} WithoutAbsent(s: seq<string>, x: string)
    requires x !in s
    ensures Without(s, x) == s
  {
    if s != [] {
      WithoutAbsent(s[1..], x);
      assert s == [s[0]] + s[1..];
    }
  }

  /** The middle element of a list without repetitions occurs on neither side of it */
  lemma {:induction false} DistinctMiddle(a: seq<string>, x: string, b: seq<string>)
    requires Distinct(a + [x] + b)
    ensures x !in a && x !in b
  {
    var s := a + [x] + b;
    if a == [] {
      assert s == [x] + b;
      DistinctCons(x, b);
    } else {
      assert s == [a[0]] + (a[1..] + [x] + b);
      DistinctCons(a[0], a[1..] + [x] + b);
      DistinctMiddle(a[1..], x, b);
      assert a == [a[0]] + a[1..];
    }
  }

  /** In a list without repetitions, the element at `i` is neither before nor after `i` */
  lemma DistinctSplit(s: seq<string>, i: nat)
    requires Distinct(s) && i < |s|
    ensures s[i] !in s[..i] && s[i] !in s[i + 1..]
  {
    assert s == s[..i] + [s[i]] + s[i + 1..];
    DistinctMiddle(s[..i], s[i], s[i + 1..]);
  }

  /** Appending a new element keeps a list free of repetitions */
  lemma {:induction false} DistinctSnoc(s: seq<string>, x: string)
    requires Distinct(s) && x !in s
    ensures Distinct(s + [x])
  {
    if s != [] {
      assert (s + [x])[1..] == s[1..] + [x];
      DistinctSnoc(s[1..], x);
    }
  }

  /** Filtering keeps a list free of repetitions */
  lemma {:induction false} KeptDistinct(table: map<string, Entry>, keys: seq<string>, cutoffMs: int)
    requires Distinct(keys)
    ensures Distinct(Kept(table, keys, cutoffMs))
  {
    if keys != [] {
      var before, id := keys[..|keys| - 1], keys[|keys| - 1];
      assert keys == before + [id] && keys == before + [id] + [];
      DistinctMiddle(before, id, []);
      DistinctPrefix(before, [id]);
      KeptDistinct(table, before, cutoffMs);
      if id in table && table[id].dateMs >= cutoffMs {
        DistinctSnoc(Kept(table, before, cutoffMs), id);
      } else {
        assert Kept(table, keys, cutoffMs) == Kept(table, before, cutoffMs) + [];
        assert Kept(table, keys, cutoffMs) == Kept(table, before, cutoffMs);
      }
    }
  }

  lemma {:induction false} DistinctPrefix(a: seq<string>, b: seq<string>)
    requires Distinct(a + b)
    ensures Distinct(a)
  {
    if a != [] {
      assert (a + b)[1..] == a[1..] + b;
      DistinctPrefix(a[1..], b);
    }
  }

  /** The worker's `scheduledAlarms`: a Map, which iterates in insertion order */
  class AlarmTable {
    /** The keys, in insertion order */
    var order: seq<string>
    /** The entries by id */
    var entries: map<string, Entry>

    ghost predicate Valid()
      reads this
    {
      Coherent(Store(order, entries))
    }

    constructor ()
      ensures Valid() && order == [] && entries == map[]
    {
      order := [];
      entries := map[];
    }

    /** `scheduledAlarms.set(id, e)`: a new key goes last, an existing one keeps its place */
    method Set(id: string, e: Entry)
      requires Valid()
      modifies this
      ensures Valid()
      ensures entries == old(entries)[id := e]
      ensures order == if id in old(entries) then old(order) else old(order) + [id]
    {
      if id !in entries {
        DistinctSnoc(order, id);
        order := order + [id];
      }
      entries := entries[id := e];
    }

    /** `scheduledAlarms.delete(id)` */
    method Delete(id: string)
      modifies this
      ensures entries == old(entries) - {id}
      ensures order == Without(old(order), id)
    {
      order := Without(order, id);
      entries := entries - {id};
    }

    /** The `message` listener: edits the table as Apply says and answers
        on the reply port when there is one. */
    method HandleMessage(msg: Message, hasPort: bool, nowMs: int) returns (reply: Option<Reply>)
      requires Valid()
      modifies this
      ensures Valid()
      ensures entries == Apply(old(entries), msg, nowMs)
      ensures order == match msg
        case ScheduleAlarm(id, _, _, true) => if id in old(entries) then old(order) else old(order) + [id]
        case ScheduleAlarm(id, _, _, false) => Without(old(order), id)
        case CancelAlarm(id) => Without(old(order), id)
        case OtherMessage => old(order)
      ensures reply == ReplyTo(msg, hasPort)
    {
      match msg {
        case ScheduleAlarm(id, time, sound, enabled) =>
          if enabled {
            Set(id, Entry(time, sound, nowMs, false));
          } else {
            Delete(id);
            DeleteCoherent(old(Store(order, entries)), id);
          }
        case CancelAlarm(id) =>
          Delete(id);
          DeleteCoherent(old(Store(order, entries)), id);
        case OtherMessage =>
      }
      reply := ReplyTo(msg, hasPort);
    }

    /** `checkScheduledAlarms`: the first pass notifies every entry due this
        minute and marks it triggered; the second drops every entry scheduled
        more than 24 hours ago. */
    method CheckScheduledAlarms(nowMinutes: int, nowMs: int) returns (notes: seq<Notification>)
      requires Valid()
      modifies this
      ensures Valid()
      ensures notes == FirstSweep(old(entries), old(order), |old(order)|, nowMinutes).notes
      ensures entries == Evict(Mark(old(entries), nowMinutes), nowMs - DayMs)
      ensures order == Kept(Mark(old(entries), nowMinutes), old(order), nowMs - DayMs)
    {
      FirstSweepEnds(Store(order, entries), nowMinutes);
      notes := FirePass(nowMinutes);
      EvictionEnds(Store(order, entries), nowMs - DayMs);
      EvictPass(nowMs - DayMs);
    }

    /** The first `forEach`: one-shot firing */
    method FirePass(nowMinutes: int) returns (notes: seq<Notification>)
      requires Valid()
      modifies this
      ensures Valid() && order == old(order)
      ensures Sweep(entries, notes) == FirstSweep(old(entries), order, |order|, nowMinutes)
    {
      ghost var start := Store(order, entries);
      var keys, table := order, entries;
      notes := [];
      var i := 0;
      while i < |keys|
        invariant 0 <= i <= |keys|
        invariant unchanged(this)
        invariant Sweep(table, notes) == FirstSweep(start.entries, keys, i, nowMinutes)
      {
        var id := keys[i];
        assert id in table by {
          FirstSweepVisits(start, i, nowMinutes);
        }
        table, notes := FireIfDue(table, notes, id, nowMinutes);
        FirstSweepStep(start.entries, keys, i, nowMinutes);
        i := i + 1;
      }
      assert order == keys && i == |keys| && start.entries == old(entries);
      assert Sweep(table, notes) == FirstSweep(old(entries), order, |order|, nowMinutes);
      entries := table;
      SameKeysCoherent(start, table);
      assert order == old(order);
      assert Sweep(entries, notes) == FirstSweep(old(entries), order, |order|, nowMinutes);
      assert Valid();
    }

    /** The callback of the first `forEach`: a due entry is notified and marked triggered */
    static method FireIfDue(table: map<string, Entry>, notes: seq<Notification>, id: string, nowMinutes: int)
      returns (table': map<string, Entry>, notes': seq<Notification>)
      requires id in table
      ensures Sweep(table', notes') == FireAt(Sweep(table, notes), id, nowMinutes)
    {
      table', notes' := table, notes;
      var e := table[id];
      if e.time == Int(nowMinutes) && !e.triggered {
        table' := table[id := e.(triggered := true)];
        notes' := notes + [NoteOf(id, e, nowMinutes)];
      }
    }

    /** The second `forEach`: deletes, while iterating, every entry scheduled before `cutoffMs` */
    method EvictPass(cutoffMs: int)
      requires Valid()
      modifies this
      ensures Valid()
      ensures Store(order, entries) == Eviction(Store(old(order), old(entries)), old(order), |old(order)|, cutoffMs)
    {
      var keys := order;
      var i := 0;
      while i < |keys|
        invariant 0 <= i <= |keys|
        invariant Store(order, entries) == Eviction(Store(keys, old(entries)), keys, i, cutoffMs)
      {
        var id := keys[i];
        assert id in entries by {
          EvictionReaches(Store(keys, old(entries)), i, cutoffMs);
        }
        if entries[id].dateMs < cutoffMs {
          Delete(id);
        }
        i := i + 1;
      }
      EvictionCoherent(Store(keys, old(entries)), cutoffMs);
    }
  }
}
