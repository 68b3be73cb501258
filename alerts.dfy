/** The alert engine: the sound catalog, `playAlarm`/`stopAlarm` and the bag
    `alarmTimeouts` of pending delayed actions that one alert owns. The host's
    `setTimeout` table is part of the state (`pending`), so that cancelling
    can be stated as "nothing of the alert is left to run". */
module Alerts {
  import opened JsValues

  /** A profile of the catalog, with its duration in whole milliseconds */
  datatype Profile = Profile(frequency: nat, durationMs: nat, repeat: nat, voice: Option<string>)

  /** `alarmSounds` */
  function Catalog(name: string): Option<Profile> {
    match name
    case "beep" => Some(Profile(800, 500, 3, None))
    case "cockpit" => Some(Profile(1000, 300, 5, None))
    case "radio" => Some(Profile(600, 800, 2, None))
    case "warning" => Some(Profile(1200, 400, 4, None))
    case "chime" => Some(Profile(440, 1000, 2, None))
    case "pullup" => Some(Profile(800, 800, 3, Some("PULL UP, PULL UP")))
    case "terrain" => Some(Profile(900, 700, 4, Some("TERRAIN, TERRAIN")))
    case "bankangle" => Some(Profile(750, 600, 3, Some("BANK ANGLE, BANK ANGLE")))
    case "windshear" => Some(Profile(1100, 900, 2, Some("WINDSHEAR, WINDSHEAR")))
    case _ => None
  }

  /** `alarmSounds[soundType] || alarmSounds['beep']` */
  function ProfileOrBeep(name: string): (p: Profile)
    ensures Catalog(name).Some? ==> p == Catalog(name).value
    ensures Catalog(name).None? ==> p == Profile(800, 500, 3, None)
  {
    match Catalog(name)
    case Some(p) => p
    case None => Profile(800, 500, 3, None)
  }

  datatype AlertKind = AlarmAlert | StopwatchAlert | TimerWarningAlert | TimerAlert

  /** A call `playAlarm(type, customSoundType)`; an empty `customSound`
      stands for a missing or empty `customSoundType`. */
  datatype Alert = Alert(kind: AlertKind, customSound: string)

  /** `customSoundType || (type === 'alarm' ? alarmSoundSelect.value : 'beep')` */
  function SoundType(a: Alert, alarmSoundSelect: string): (name: string)
    ensures a.customSound != "" ==> name == a.customSound
    ensures a.customSound == "" && a.kind == AlarmAlert ==> name == alarmSoundSelect
    ensures a.customSound == "" && a.kind != AlarmAlert ==> name == "beep"
  {
    if a.customSound != "" then a.customSound
    else if a.kind == AlarmAlert then alarmSoundSelect
    else "beep"
  }

  /** The alert window: every alert stops itself after 30 s */
  const AlarmDurationMs: nat := 30000

  /** Silence between two plays of a tone */
  const GapMs: nat := 200

  /** `(sound.duration + 0.2) * 1000` */
  function IntervalMs(p: Profile): nat {
    p.durationMs + GapMs
  }

  /** `Math.floor(30000 / interval)` */
  function TotalRepeats(intervalMs: nat): nat
    requires intervalMs > 0
  {
    AlarmDurationMs / intervalMs
  }

  datatype Action =
    | RepeatTones(soundType: string)   // one more chorus of tones (and voices)
    | Speak(text: string, layer: nat)  // one of the three chorus utterances
    | CustomRepeat                     // one more play of the uploaded audio
    | AutoStop                         // `stopAlarm()` at the end of the window

  /** A `setTimeout(action, delayMs)` */
  datatype Timeout = Timeout(delayMs: nat, action: Action)

  /** What reaches the audio back end */
  datatype Emission = Tones(frequency: nat) | Speech(text: string) | CustomAudio | BlockingAlert

  /** The three chorus utterances, each `setTimeout(..., index * 50)` */
  function SpeechTimeouts(text: string): seq<Timeout> {
    [Timeout(0, Speak(text, 0)), Timeout(50, Speak(text, 1)), Timeout(100, Speak(text, 2))]
  }

  /** `for (let i = 1; i < count; i++) setTimeout(action, i * intervalMs)` */
  function Repeats(action: Action, intervalMs: nat, count: nat): (r: seq<Timeout>)
    ensures |r| == (if count <= 1 then 0 else count - 1)
  {
    if count <= 1 then [] else Repeats(action, intervalMs, count - 1) + [Timeout((count - 1) * intervalMs, action)]
  }

  /** The k-th repeat (from 0) runs at (k + 1) intervals */
  lemma {:induction false} RepeatsAt(action: Action, intervalMs: nat, count: nat, k: nat)
    requires k < |Repeats(action, intervalMs, count)|
    ensures Repeats(action, intervalMs, count)[k] == Timeout((k + 1) * intervalMs, action)
  {
    if k < count - 2 {
      RepeatsAt(action, intervalMs, count - 1, k);
    }
  }

  /** A repeat with a larger index runs strictly later */
  lemma LaterRepeat(j: nat, k: nat, intervalMs: nat)
    requires j < k && intervalMs > 0
    ensures j * intervalMs < k * intervalMs
  {
  }

  /** The repeats of a tone fill the window: there are floor(30000 / interval) - 1
      of them, at increasing delays, every one strictly inside (0, 30000). */
  lemma RepeatsInsideWindow(action: Action, intervalMs: nat)
    requires intervalMs > 0
    ensures var r := Repeats(action, intervalMs, TotalRepeats(intervalMs));
      && |r| == (if TotalRepeats(intervalMs) == 0 then 0 else TotalRepeats(intervalMs) - 1)
      && (forall k :: 0 <= k < |r| ==> r[k].action == action && 0 < r[k].delayMs < AlarmDurationMs)
      && (forall j, k :: 0 <= j < k < |r| ==> r[j].delayMs < r[k].delayMs)
  {
    var total := TotalRepeats(intervalMs);
    var r := Repeats(action, intervalMs, total);
    assert total * intervalMs <= AlarmDurationMs;
    forall k | 0 <= k < |r|
      ensures r[k].action == action && 0 < r[k].delayMs < AlarmDurationMs
    {
      RepeatsAt(action, intervalMs, total, k);
      LaterRepeat(k + 1, total, intervalMs);
    }
    forall j, k | 0 <= j < k < |r|
      ensures r[j].delayMs < r[k].delayMs
    {
      RepeatsAt(action, intervalMs, total, j);
      RepeatsAt(action, intervalMs, total, k);
      LaterRepeat(j + 1, k + 1, intervalMs);
    }
  }

  /** The timeouts one tone alert owns, in the order they are scheduled: the
      voice layers (when the profile speaks and speech is available), the
      repeats, and the auto-stop. */
  function TonePlan(soundType: string, speech: bool): seq<Timeout> {
    ProfilePlan(ProfileOrBeep(soundType), soundType, speech)
  }

  /** The tone plan of the resolved profile `p` of `soundType` */
  function ProfilePlan(p: Profile, soundType: string, speech: bool): seq<Timeout> {
    (if p.voice.Some? && speech then SpeechTimeouts(p.voice.value) else [])
      + Repeats(RepeatTones(soundType), IntervalMs(p), TotalRepeats(IntervalMs(p)))
      + [Timeout(AlarmDurationMs, AutoStop)]
  }

  /** Every tone alert ends with exactly one auto-stop, at 30 s, and
      everything else it schedules is due before that. */
  lemma TonePlanAutoStop(soundType: string, speech: bool)
    ensures var plan := TonePlan(soundType, speech);
      && |plan| >= 1
      && plan[|plan| - 1] == Timeout(AlarmDurationMs, AutoStop)
      && (forall k :: 0 <= k < |plan| - 1 ==> plan[k].action != AutoStop && plan[k].delayMs < AlarmDurationMs)
  {
    var p := ProfileOrBeep(soundType);
    RepeatsInsideWindow(RepeatTones(soundType), IntervalMs(p));
  }

  /** The ids `first`, `first + 1`, ... of n consecutive `setTimeout` calls */
  function Ids(first: nat, n: nat): (ids: seq<nat>)
    ensures |ids| == n
    ensures forall id :: id in ids <==> first <= id < first + n
  {
    if n == 0 then [] else Ids(first, n - 1) + [first + n - 1]
  }

  /** The host's table after scheduling `plan` with ids from `first` on */
  function Table(first: nat, plan: seq<Timeout>): (t: map<nat, Timeout>)
    ensures forall id :: id in t <==> first <= id < first + |plan|
    ensures forall id :: id in t ==> t[id] == plan[id - first]
  {
    map id | id in Ids(first, |plan|) :: plan[id - first]
  }

  lemma TableSnoc(first: nat, plan: seq<Timeout>, t: Timeout)
    ensures Table(first, plan + [t]) == Table(first, plan)[first + |plan| := t]
  {
    var l, r := Table(first, plan + [t]), Table(first, plan)[first + |plan| := t];
    assert l.Keys == r.Keys;
    forall id | id in l
      ensures l[id] == r[id]
    {
      if id < first + |plan| {
        assert (plan + [t])[id - first] == plan[id - first];
      }
    }
  }

  /** The k-th id is `first + k` */
  lemma {:induction false} IdsAt(first: nat, n: nat, k: nat)
    requires k < n
    ensures Ids(first, n)[k] == first + k
  {
    if k < n - 1 {
      IdsAt(first, n - 1, k);
    }
  }

  /** Every pending timeout is recorded in the bag, and every recorded id has been handed out */
  ghost predicate Owned(bag: seq<nat>, pending: map<nat, Timeout>, nextId: nat) {
    && (forall id :: id in pending ==> id in bag)
    && (forall id :: id in bag ==> id < nextId)
  }

  /** Scheduling a plan and recording every id keeps the pending timeouts owned */
  lemma ScheduleOwned(bag: seq<nat>, pending: map<nat, Timeout>, nextId: nat, plan: seq<Timeout>)
    requires Owned(bag, pending, nextId)
    ensures Owned(bag + Ids(nextId, |plan|), pending + Table(nextId, plan), nextId + |plan|)
  {
  }

  /** Scheduling one timeout and recording its id keeps the pending timeouts owned */
  lemma PushOwned(bag: seq<nat>, pending: map<nat, Timeout>, nextId: nat, t: Timeout)
    requires Owned(bag, pending, nextId)
    ensures Owned(bag + [nextId], pending[nextId := t], nextId + 1)
  {
  }

  /** The alert engine: `alarmTimeouts` and the host timeouts it refers to */
  class AlertEngine {
    /** The ids recorded for cancellation (the source's `alarmTimeouts`) */
    var alarmTimeouts: seq<nat>
    /** The host's timeouts still due, by id */
    var pending: map<nat, Timeout>
    /** The id the next `setTimeout` returns */
    var nextId: nat
    /** Everything played so far */
    var emitted: seq<Emission>

    /** Ids are allocated in order, and every pending action of an alert is
        recorded in `alarmTimeouts`, so that `stopAlarm` reaches it. */
    ghost predicate Valid()
      reads this
    {
      Owned(alarmTimeouts, pending, nextId)
    }

    constructor ()
      ensures Valid()
      ensures alarmTimeouts == [] && pending == map[] && emitted == []
    {
      alarmTimeouts := [];
      pending := map[];
      nextId := 0;
      emitted := [];
    }

    /** `alarmTimeouts.push(setTimeout(...))` */
    method Push(t: Timeout)
      modifies this
      ensures nextId == old(nextId) + 1
      ensures alarmTimeouts == old(alarmTimeouts) + [old(nextId)]
      ensures pending == old(pending)[old(nextId) := t]
      ensures emitted == old(emitted)
    {
      pending := pending[nextId := t];
      alarmTimeouts := alarmTimeouts + [nextId];
      nextId := nextId + 1;
    }

    /** Pushes `plan` in order: the bag grows by fresh ids and the host
        holds the plan under them. */
    method PushAll(plan: seq<Timeout>)
      modifies this
      ensures nextId == old(nextId) + |plan|
      ensures alarmTimeouts == old(alarmTimeouts) + Ids(old(nextId), |plan|)
      ensures pending == old(pending) + Table(old(nextId), plan)
      ensures emitted == old(emitted)
    {
      ghost var start := Books(alarmTimeouts, pending, nextId);
      var i := 0;
      while i < |plan|
        invariant 0 <= i <= |plan|
        invariant Scheduled(start, plan[..i], true, Books(alarmTimeouts, pending, nextId))
        invariant emitted == old(emitted)
      {
        ScheduledSnoc(start, plan[..i], plan[i], true, Books(alarmTimeouts, pending, nextId));
        assert plan[..i + 1] == plan[..i] + [plan[i]];
        Push(plan[i]);
        i := i + 1;
      }
      assert plan[..i] == plan;
    }

    /** `stopAlarm`: clears every recorded timeout and empties the bag. Since
        every pending action is recorded, nothing of any alert is left to run;
        on an empty bag it changes nothing. */
    method StopAlarm()
      requires Valid()
      modifies this
      ensures Valid()
      ensures alarmTimeouts == [] && pending == map[]
      ensures nextId == old(nextId) && emitted == old(emitted)
    {
      var i := 0;
      while i < |alarmTimeouts|
        invariant 0 <= i <= |alarmTimeouts|
        invariant alarmTimeouts == old(alarmTimeouts) && nextId == old(nextId) && emitted == old(emitted)
        invariant forall id :: id in pending <==> id in old(pending) && id !in alarmTimeouts[..i]
      {
        assert alarmTimeouts[..i + 1] == alarmTimeouts[..i] + [alarmTimeouts[i]];
        pending := pending - {alarmTimeouts[i]};
        i := i + 1;
      }
      assert alarmTimeouts[..i] == alarmTimeouts;
      assert forall id :: id !in pending;
      alarmTimeouts := [];
    }

    /** `playAlarm(type, customSoundType)`: stops the current alert, then
        either plays the uploaded audio (bag: the auto-stop), or, when no
        audio context can be made, raises the blocking alert (bag: empty), or
        plays the tone chorus and schedules the tone plan (bag: exactly the plan). */
    method PlayAlarm(alert: Alert, alarmSoundSelect: string, customAudio: bool,
                     audioAvailable: bool, speechAvailable: bool)
      requires Valid()
      modifies this
      ensures Valid()
      ensures var soundType := SoundType(alert, alarmSoundSelect);
        if soundType == "custom" && customAudio then
          && alarmTimeouts == [old(nextId)]
          && pending == map[old(nextId) := Timeout(AlarmDurationMs, AutoStop)]
          && emitted == old(emitted) + [CustomAudio]
        else if !audioAvailable then
          alarmTimeouts == [] && pending == map[] && emitted == old(emitted) + [BlockingAlert]
        else
          var plan := TonePlan(soundType, speechAvailable);
          && alarmTimeouts == Ids(old(nextId), |plan|)
          && pending == Table(old(nextId), plan)
          && emitted == old(emitted) + [Tones(ProfileOrBeep(soundType).frequency)]
    {
      var soundType := SoundType(alert, alarmSoundSelect);
      StopAlarm();
      if soundType == "custom" && customAudio {
        PlayCustomAlarm();
        assert pending == map[][old(nextId) := Timeout(AlarmDurationMs, AutoStop)];
      } else if !audioAvailable {
        emitted := emitted + [BlockingAlert];
      } else {
        ghost var before := pending;
        PlayTones(ProfileOrBeep(soundType), soundType, speechAvailable);
        assert before == map[];
        assert pending == Table(old(nextId), TonePlan(soundType, speechAvailable));
      }
    }

    /** The tone branch of `playAlarm` for the profile `sound` of `soundType`:
        the first chorus, the voice layers, the repeats and the auto-stop,
        each scheduled in that order. */
    method PlayTones(sound: Profile, soundType: string, speechAvailable: bool)
      requires Valid()
      modifies this
      ensures Valid()
      ensures var plan := ProfilePlan(sound, soundType, speechAvailable);
        && nextId == old(nextId) + |plan|
        && alarmTimeouts == old(alarmTimeouts) + Ids(old(nextId), |plan|)
        && pending == old(pending) + Table(old(nextId), plan)
      ensures emitted == old(emitted) + [Tones(sound.frequency)]
    {
      emitted := emitted + [Tones(sound.frequency)];
      var voicePlan := if sound.voice.Some? && speechAvailable then SpeechTimeouts(sound.voice.value) else [];
      var intervalTime := IntervalMs(sound);
      var repeats := Repeats(RepeatTones(soundType), intervalTime, TotalRepeats(intervalTime));
      PushAll(voicePlan + repeats + [Timeout(AlarmDurationMs, AutoStop)]);
      ScheduleOwned(old(alarmTimeouts), old(pending), old(nextId), voicePlan + repeats + [Timeout(AlarmDurationMs, AutoStop)]);
    }

    /** `playCustomAlarm`: starts the uploaded audio and records the auto-stop;
        the repeats follow once the audio's duration is known (OnCustomMetadata). */
    method PlayCustomAlarm()
      requires Valid()
      modifies this
      ensures Valid()
      ensures nextId == old(nextId) + 1
      ensures alarmTimeouts == old(alarmTimeouts) + [old(nextId)]
      ensures pending == old(pending)[old(nextId) := Timeout(AlarmDurationMs, AutoStop)]
      ensures emitted == old(emitted) + [CustomAudio]
    {
      emitted := emitted + [CustomAudio];
      Push(Timeout(AlarmDurationMs, AutoStop));
      PushOwned(old(alarmTimeouts), old(pending), old(nextId), Timeout(AlarmDurationMs, AutoStop));
    }

    /** The `loadedmetadata` listener of the uploaded audio: one replay every
        `durationMs` inside the 30 s window, each recorded in the bag. */
    method OnCustomMetadata(durationMs: nat)
      requires Valid()
      requires durationMs > 0
      modifies this
      ensures Valid()
      ensures var plan := Repeats(CustomRepeat, durationMs, TotalRepeats(durationMs));
        && alarmTimeouts == old(alarmTimeouts) + Ids(old(nextId), |plan|)
        && pending == old(pending) + Table(old(nextId), plan)
      ensures emitted == old(emitted)
    {
      PushAll(Repeats(CustomRepeat, durationMs, TotalRepeats(durationMs)));
      ScheduleOwned(old(alarmTimeouts), old(pending), old(nextId), Repeats(CustomRepeat, durationMs, TotalRepeats(durationMs)));
    }

    /** The uploaded audio could not be played: one `beep` tone instead
        (`playDefaultAlarm`), nothing scheduled; without an audio context, nothing. */
    method OnCustomPlayFailed(audioAvailable: bool)
      requires Valid()
      modifies this
      ensures Valid()
      ensures alarmTimeouts == old(alarmTimeouts) && pending == old(pending) && nextId == old(nextId)
      ensures emitted == old(emitted) + (if audioAvailable then [Tones(800)] else [])
    {
      if audioAvailable {
        emitted := emitted + [Tones(ProfileOrBeep("beep").frequency)];
      }
    }

    /** The host runs the pending timeout `id`: a repeat plays the chorus again
        (and schedules its voice layers), a voice layer speaks, a custom repeat
        replays the upload, and the auto-stop stops the alert. */
    method Fire(id: nat, speechAvailable: bool)
      requires Valid() && id in pending
      modifies this
      ensures Valid()
      ensures var action := old(pending[id]).action;
        match action
        case RepeatTones(soundType) =>
          var sound := ProfileOrBeep(soundType);
          var voicePlan := if sound.voice.Some? && speechAvailable then SpeechTimeouts(sound.voice.value) else [];
          && emitted == old(emitted) + [Tones(sound.frequency)]
          && alarmTimeouts == old(alarmTimeouts) + Ids(old(nextId), |voicePlan|)
          && pending == (old(pending) - {id}) + Table(old(nextId), voicePlan)
        case Speak(text, _) =>
          emitted == old(emitted) + [Speech(text)] && alarmTimeouts == old(alarmTimeouts) && pending == old(pending) - {id}
        case CustomRepeat =>
          emitted == old(emitted) + [CustomAudio] && alarmTimeouts == old(alarmTimeouts) && pending == old(pending) - {id}
        case AutoStop =>
          emitted == old(emitted) && alarmTimeouts == [] && pending == map[]
    {
      var action := pending[id].action;
      pending := pending - {id};
      match action
      case RepeatTones(soundType) =>
        var sound := ProfileOrBeep(soundType);
        emitted := emitted + [Tones(sound.frequency)];
        if sound.voice.Some? && speechAvailable {
          ghost var bag, left, next := alarmTimeouts, pending, nextId;
          PushAll(SpeechTimeouts(sound.voice.value));
          ScheduleOwned(bag, left, next, SpeechTimeouts(sound.voice.value));
        } else {
          assert Table(nextId, []) == map[];
        }
      case Speak(text, _) =>
        emitted := emitted + [Speech(text)];
      case CustomRepeat =>
        emitted := emitted + [CustomAudio];
      case AutoStop =>
        StopAlarm();
    }
  }

  /** The alert's bookkeeping as plain values, for comparing the source as
      written with the model above. */
  datatype Books = Books(bag: seq<nat>, pending: map<nat, Timeout>, nextId: nat)

  /** `stopAlarm` on values: clear every recorded timeout, empty the bag */
  function StopBooks(b: Books): (r: Books)
    ensures r.bag == [] && r.nextId == b.nextId
    ensures forall id :: id in r.pending <==> id in b.pending && id !in b.bag
    ensures forall id :: id in r.pending ==> r.pending[id] == b.pending[id]
  {
    Books([], b.pending - (set id | id in b.bag), b.nextId)
  }

  /** One `setTimeout(t)`, its id pushed to the bag only when `record` */
  function PushBooks(b: Books, t: Timeout, record: bool): Books {
    Books(if record then b.bag + [b.nextId] else b.bag, b.pending[b.nextId := t], b.nextId + 1)
  }

  /** The bookkeeping once `plan` is scheduled on `b` */
  ghost predicate Scheduled(b: Books, plan: seq<Timeout>, record: bool, r: Books) {
    && r.nextId == b.nextId + |plan|
    && r.bag == (if record then b.bag + Ids(b.nextId, |plan|) else b.bag)
    && r.pending == b.pending + Table(b.nextId, plan)
  }

  /** One more `setTimeout` extends a schedule by its last timeout */
  lemma ScheduledSnoc(b: Books, init: seq<Timeout>, last: Timeout, record: bool, r: Books)
    requires Scheduled(b, init, record, r)
    ensures Scheduled(b, init + [last], record, PushBooks(r, last, record))
  {
    TableSnoc(b.nextId, init, last);
    assert (b.pending + Table(b.nextId, init))[r.nextId := last]
        == b.pending + Table(b.nextId, init)[r.nextId := last];
    assert Ids(b.nextId, |init + [last]|) == Ids(b.nextId, |init|) + [r.nextId];
  }

  /** `setTimeout` for each of `plan`, in order */
  function ScheduleBooks(b: Books, plan: seq<Timeout>, record: bool): (r: Books)
    ensures r.nextId == b.nextId + |plan|
    ensures r.bag == (if record then b.bag + Ids(b.nextId, |plan|) else b.bag)
    ensures r.pending == b.pending + Table(b.nextId, plan)
  {
    if plan == [] then b
    else
      var init, last := plan[..|plan| - 1], plan[|plan| - 1];
      var r := ScheduleBooks(b, init, record);
      ScheduledSnoc(b, init, last, record, r);
      assert plan == init + [last];
      PushBooks(r, last, record)
  }

  /** `playAlarm` of a tone profile as written: the voice layers are handed to
      `setTimeout` but their ids are never pushed to `alarmTimeouts`. */
  function PlayAsWritten(b: Books, soundType: string, speech: bool): Books {
    var sound := ProfileOrBeep(soundType);
    var stopped := StopBooks(b);
    var voiced := if sound.voice.Some? && speech then ScheduleBooks(stopped, SpeechTimeouts(sound.voice.value), false) else stopped;
    ScheduleBooks(voiced,
                  Repeats(RepeatTones(soundType), IntervalMs(sound), TotalRepeats(IntervalMs(sound)))
                    + [Timeout(AlarmDurationMs, AutoStop)], true)
  }

  /** As written, stopping a speaking alert (any profile with a voice, such
      as 'pullup') right after it starts leaves its three voice layers due:
      `stopAlarm` does not reach them. */
  lemma AsWrittenStopLeavesSpeech(b: Books, soundType: string)
    requires forall id :: id in b.pending ==> id in b.bag
    requires ProfileOrBeep(soundType).voice.Some?
    ensures var voice := SpeechTimeouts(ProfileOrBeep(soundType).voice.value);
      StopBooks(PlayAsWritten(b, soundType, true)).pending == Table(b.nextId, voice)
  {
    var sound := ProfileOrBeep(soundType);
    var voice := SpeechTimeouts(sound.voice.value);
    var rest := Repeats(RepeatTones(soundType), IntervalMs(sound), TotalRepeats(IntervalMs(sound)))
                  + [Timeout(AlarmDurationMs, AutoStop)];
    var stopped := StopBooks(b);
    assert stopped.pending == map[];
    StopLeavesUnrecorded(stopped, voice, rest);
  }

  /** The repeat callback of a tone profile as written: the tones play again
      and the voice layers are handed to `setTimeout`, but their ids are never
      pushed to `alarmTimeouts`. */
  function FireRepeatAsWritten(b: Books, id: nat, soundType: string, speech: bool): Books {
    var sound := ProfileOrBeep(soundType);
    var fired := b.(pending := b.pending - {id});
    if sound.voice.Some? && speech then ScheduleBooks(fired, SpeechTimeouts(sound.voice.value), false) else fired
  }

  /** As written, stopping a speaking alert right after one of its repeats
      fires leaves the three voice layers of that repeat due, even when every
      earlier timeout was recorded. */
  lemma AsWrittenRepeatLeavesSpeech(b: Books, id: nat, soundType: string)
    requires id in b.pending && Owned(b.bag, b.pending, b.nextId)
    requires ProfileOrBeep(soundType).voice.Some?
    ensures var voice := SpeechTimeouts(ProfileOrBeep(soundType).voice.value);
      StopBooks(FireRepeatAsWritten(b, id, soundType, true)).pending == Table(b.nextId, voice)
  {
    var voice := SpeechTimeouts(ProfileOrBeep(soundType).voice.value);
    var fired := b.(pending := b.pending - {id});
    var played := ScheduleBooks(fired, voice, false);
    var left := StopBooks(played).pending;
    assert played.bag == b.bag;
    assert left.Keys == Table(b.nextId, voice).Keys;
  }

  /** Scheduling `voice` unrecorded and then `rest` recorded on a bookkeeping
      with nothing due: a later stop leaves exactly `voice` due. */
  lemma StopLeavesUnrecorded(b: Books, voice: seq<Timeout>, rest: seq<Timeout>)
    requires b.pending == map[] && b.bag == []
    ensures StopBooks(ScheduleBooks(ScheduleBooks(b, voice, false), rest, true)).pending == Table(b.nextId, voice)
  {
    var voiced := ScheduleBooks(b, voice, false);
    var speech := Table(b.nextId, voice);
    assert voiced.pending == speech && voiced.bag == [] by {
      assert map[] + speech == speech;
    }
    var played := ScheduleBooks(voiced, rest, true);
    assert played.bag == Ids(voiced.nextId, |rest|);
    DropScheduled(speech, voiced.nextId, rest);
  }

  /** Clearing the ids of a schedule made after every id of `m` leaves `m` */
  lemma DropScheduled(m: map<nat, Timeout>, first: nat, plan: seq<Timeout>)
    requires forall id :: id in m ==> id < first
    ensures (m + Table(first, plan)) - (set id | id in Ids(first, |plan|)) == m
  {
    var left := (m + Table(first, plan)) - (set id | id in Ids(first, |plan|));
    assert left.Keys == m.Keys;
  }
}
