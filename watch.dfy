/** The watch page's own state machine: the mode, the stopwatch and timer
    counters with their running flags, the one-shot alerts they raise, the
    wall-clock alarm check, and the handlers of the configuration panel.

    The functions `On...` give the effect of each handler on the page's
    variables as a value (`Outcome`); the class `Watch` holds the same
    variables as fields and its methods are proved to have exactly that effect. */
module Cockpit {
  import opened JsValues
  import TimeFormat
  import Settings
  import Alerts
  import Background

  /** `currentMode` */
  datatype Mode = ClockMode | StopwatchMode | TimerMode | AlarmMode

  /** The page's variables, the configuration panel's inputs and the settings
      record in local storage. A `null` or empty `alarmTime` is the empty string. */
  datatype State = State(
    mode: Mode,
    stopwatchRunning: bool,
    timerRunning: bool,
    stopwatchTime: int,
    timerTime: int,
    alarmTime: string,
    alarmEnabled: bool,
    stopwatchAlarmTime: Num,
    stopwatchAlarmEnabled: bool,
    stopwatchAlarmTriggered: bool,
    timerWarningTime: int,
    timerWarningTriggered: bool,
    format24h: bool,
    showSeconds: bool,
    customAudioData: Option<string>,
    customAudioName: string,
    panel: Settings.Form,
    stored: Option<Settings.Saved>)

  /** The variables as the page declares them, with whatever panel and storage it finds */
  function Initial(panel: Settings.Form, stored: Option<Settings.Saved>): State {
    State(ClockMode, false, false, 0, 0, "", false, Int(300), false, false, 10, false, true, true, None, "", panel, stored)
  }

  /** The effect of one handler: the new state, the `playAlarm` calls it made
      in order, and the messages it posted to the service worker */
  datatype Outcome = Outcome(next: State, alerts: seq<Alerts.Alert>, messages: seq<Background.Message>)

  function Quiet(s: State): Outcome {
    Outcome(s, [], [])
  }

  /** The id under which the page schedules its alarm with the service worker */
  const MainAlarmId: string := "main-alarm"

  // ---------------------------------------------------------------------
  // Display and one-shot triggers

  /** The stopwatch alarm's condition in `displayStopwatch` */
  predicate StopwatchAlarmDue(s: State) {
    s.stopwatchAlarmEnabled && !s.stopwatchAlarmTriggered && AtLeast(s.stopwatchTime, s.stopwatchAlarmTime)
  }

  /** `displayStopwatch`: when due, the stopwatch alarm plays and its flag is set */
  function OnDisplayStopwatch(s: State): Outcome {
    if StopwatchAlarmDue(s) then
      Outcome(s.(stopwatchAlarmTriggered := true),
              [Alerts.Alert(Alerts.StopwatchAlert, Settings.OrText(Some(s.panel.stopwatchAlarmSound), "beep"))], [])
    else Quiet(s)
  }

  /** The timer warning's condition in `displayTimer` */
  predicate TimerWarningDue(s: State) {
    s.timerRunning && !s.timerWarningTriggered && s.timerTime <= s.timerWarningTime && s.timerTime > 0
  }

  /** The timer's expiry condition in `displayTimer` */
  predicate TimerExpired(s: State) {
    s.timerTime <= 0 && s.timerRunning
  }

  /** `displayTimer`: the warning plays once when due; then, once the time is
      up while running, the timer stops and the timer alert plays */
  function OnDisplayTimer(s: State): Outcome {
    var w := if TimerWarningDue(s) then
        Outcome(s.(timerWarningTriggered := true),
                [Alerts.Alert(Alerts.TimerWarningAlert, Settings.OrText(Some(s.panel.timerWarningSound), "warning"))], [])
      else Quiet(s);
    if TimerExpired(w.next) then
      Outcome(w.next.(timerRunning := false), w.alerts + [Alerts.Alert(Alerts.TimerAlert, "")], [])
    else w
  }

  /** `displayTimer` never changes the time it shows */
  lemma DisplayTimerKeepsTime(s: State)
    ensures OnDisplayTimer(s).next.timerTime == s.timerTime
  {
    var w := if TimerWarningDue(s) then s.(timerWarningTriggered := true) else s;
    assert w.timerTime == s.timerTime;
  }

  /** `updateDisplay`: only the stopwatch and timer faces have triggers */
  function OnUpdateDisplay(s: State): Outcome {
    match s.mode
    case StopwatchMode => OnDisplayStopwatch(s)
    case TimerMode => OnDisplayTimer(s)
    case _ => Quiet(s)
  }

  /** `HH:MM` of a wall-clock reading, each field `toString().padStart(2, '0')` */
  function WallKey(now: TimeFormat.WallTime): string {
    PadStart2(now.hours) + ":" + PadStart2(now.minutes)
  }

  /** `checkAlarm`'s condition: enabled, set, the same `HH:MM` and the first second of the minute */
  predicate AlarmDue(s: State, now: TimeFormat.WallTime) {
    s.alarmEnabled && s.alarmTime != "" && WallKey(now) == s.alarmTime && now.seconds == 0
  }

  /** The clock's one-second interval: `updateDisplay` and then `checkAlarm` */
  function OnClockSecond(s: State, now: TimeFormat.WallTime): Outcome {
    var d := OnUpdateDisplay(s);
    if AlarmDue(d.next, now) then Outcome(d.next, d.alerts + [Alerts.Alert(Alerts.AlarmAlert, "")], [])
    else d
  }

  // ---------------------------------------------------------------------
  // Modes and counters

  /** `switchMode`: both counters stop, their values stay, the new face is shown */
  function OnSwitchMode(s: State, mode: Mode): Outcome {
    OnUpdateDisplay(s.(mode := mode, stopwatchRunning := false, timerRunning := false))
  }

  function OnStartStopwatch(s: State): State {
    s.(stopwatchRunning := true)
  }

  function OnStopStopwatch(s: State): State {
    s.(stopwatchRunning := false)
  }

  /** `resetStopwatch`: stop, back to 0, re-arm the alarm, show the face */
  function OnResetStopwatch(s: State): Outcome {
    OnDisplayStopwatch(s.(stopwatchRunning := false, stopwatchTime := 0, stopwatchAlarmTriggered := false))
  }

  /** One second of the stopwatch's interval */
  function OnStopwatchSecond(s: State): Outcome {
    OnDisplayStopwatch(s.(stopwatchTime := s.stopwatchTime + 1))
  }

  /** `startTimer`: only a positive time starts, and starting re-arms the warning */
  function OnStartTimer(s: State): State {
    if s.timerTime > 0 then s.(timerRunning := true, timerWarningTriggered := false) else s
  }

  function OnStopTimer(s: State): State {
    s.(timerRunning := false)
  }

  /** `(parseInt(minutes) || 0) * 60 + (parseInt(seconds) || 0)` */
  function TimerSetting(panel: Settings.Form): int {
    OrInt(ParseInt(panel.timerMinutes), 0) * 60 + OrInt(ParseInt(panel.timerSeconds), 0)
  }

  /** `setTimer`: the time comes from the panel, then the face is shown */
  function OnSetTimer(s: State): Outcome {
    OnDisplayTimer(s.(timerTime := TimerSetting(s.panel)))
  }

  /** `resetTimer`: stop, re-arm the warning, set from the panel */
  function OnResetTimer(s: State): Outcome {
    OnSetTimer(s.(timerRunning := false, timerWarningTriggered := false))
  }

  /** One second of the timer's interval */
  function OnTimerSecond(s: State): Outcome {
    OnDisplayTimer(s.(timerTime := s.timerTime - 1))
  }

  /** `handleStartStop` */
  function OnStartStop(s: State): Outcome {
    match s.mode
    case StopwatchMode => Quiet(if s.stopwatchRunning then OnStopStopwatch(s) else OnStartStopwatch(s))
    case TimerMode => Quiet(if s.timerRunning then OnStopTimer(s) else OnStartTimer(s))
    case _ => Quiet(s)
  }

  /** `handleReset` */
  function OnReset(s: State): Outcome {
    match s.mode
    case StopwatchMode => OnResetStopwatch(s)
    case TimerMode => OnResetTimer(s)
    case _ => Quiet(s)
  }

  /** `handleSet`: in the alarm face it only shows the panel */
  function OnSet(s: State): Outcome {
    if s.mode == TimerMode then OnSetTimer(s) else Quiet(s)
  }

  // ---------------------------------------------------------------------
  // Configuration panel

  /** `saveSettings`: the panel and the custom audio go to local storage */
  function OnSaveSettings(s: State): State {
    s.(stored := Some(Settings.Save(s.panel, s.customAudioData, s.customAudioName)))
  }

  /** The message `scheduleAlarmNotification('main-alarm', hours * 60 + minutes, sound, enabled)` */
  function ScheduleMain(alarmTime: string, sound: string, enabled: bool): Background.Message {
    Background.ScheduleAlarm(MainAlarmId, TimeFormat.MinutesSinceMidnight(alarmTime), sound, enabled)
  }

  /** `updateAlarmTime` once the time input holds `value` */
  function OnAlarmTimeInput(s: State, value: string): Outcome {
    var t := OnSaveSettings(s.(alarmTime := value, panel := s.panel.(alarmTime := value)));
    Outcome(t, [], if value != "" then [ScheduleMain(value, t.panel.alarmSound, t.alarmEnabled)] else [])
  }

  /** `toggleAlarm` once the check box reads `checked` */
  function OnAlarmEnabledInput(s: State, checked: bool): Outcome {
    var t := s.(alarmEnabled := checked, panel := s.panel.(alarmEnabled := checked));
    var messages :=
      if !checked then [Background.CancelAlarm(MainAlarmId)]
      else if t.alarmTime != "" then [ScheduleMain(t.alarmTime, t.panel.alarmSound, true)]
      else [];
    Outcome(OnSaveSettings(t), [], messages)
  }

  /** `updateStopwatchAlarmTime` once the input holds `value`: an empty value changes nothing */
  function OnStopwatchAlarmTimeInput(s: State, value: string): State {
    var t := s.(panel := s.panel.(stopwatchAlarmTime := value));
    if value != "" then OnSaveSettings(t.(stopwatchAlarmTime := TimeFormat.StopwatchAlarmSeconds(value))) else t
  }

  /** `toggleStopwatchAlarm` */
  function OnStopwatchAlarmEnabledInput(s: State, checked: bool): State {
    OnSaveSettings(s.(stopwatchAlarmEnabled := checked, panel := s.panel.(stopwatchAlarmEnabled := checked)))
  }

  /** `toggleFormat`: redraws, which runs the current face's triggers, then saves */
  function OnFormatInput(s: State, checked: bool): Outcome {
    var d := OnUpdateDisplay(s.(format24h := checked, panel := s.panel.(format24h := checked)));
    Outcome(OnSaveSettings(d.next), d.alerts, [])
  }

  /** `toggleSeconds`: as `toggleFormat`, for the seconds switch */
  function OnSecondsInput(s: State, checked: bool): Outcome {
    var d := OnUpdateDisplay(s.(showSeconds := checked, panel := s.panel.(showSeconds := checked)));
    Outcome(OnSaveSettings(d.next), d.alerts, [])
  }

  /** The inputs whose change handler only saves */
  datatype PlainField = AlarmSoundField | TimerMinutesField | TimerSecondsField
                      | TimerWarningTimeField | TimerWarningSoundField | StopwatchAlarmSoundField

  function WithField(panel: Settings.Form, field: PlainField, value: string): Settings.Form {
    match field
    case AlarmSoundField => panel.(alarmSound := value)
    case TimerMinutesField => panel.(timerMinutes := value)
    case TimerSecondsField => panel.(timerSeconds := value)
    case TimerWarningTimeField => panel.(timerWarningTime := value)
    case TimerWarningSoundField => panel.(timerWarningSound := value)
    case StopwatchAlarmSoundField => panel.(stopwatchAlarmSound := value)
  }

  /** A plain input changed: the panel shows the value and the settings are saved */
  function OnFieldInput(s: State, field: PlainField, value: string): State {
    OnSaveSettings(s.(panel := WithField(s.panel, field, value)))
  }

  /** `handleCustomAudioSelection` with the file read as `data`: only an
      accepted file replaces the custom audio (and is saved) */
  function OnAudioChosen(s: State, file: Option<Settings.AudioFile>, data: string): State {
    if Settings.CheckUpload(file) == Settings.Accepted then
      OnSaveSettings(s.(customAudioData := Some(data), customAudioName := file.value.name))
    else s
  }

  /** The variables and the panel once a stored record has been read into `form` and `a` */
  function Applying(s: State, form: Settings.Form, a: Settings.Applied): State {
    s.(panel := form,
       alarmTime := a.alarmTime,
       alarmEnabled := a.alarmEnabled,
       timerWarningTime := a.timerWarningTime,
       stopwatchAlarmEnabled := a.stopwatchAlarmEnabled,
       stopwatchAlarmTime := if a.stopwatchAlarmTime.Some? then a.stopwatchAlarmTime.value else s.stopwatchAlarmTime,
       format24h := a.format24h,
       showSeconds := a.showSeconds,
       customAudioData := if a.customAudio.Some? then Some(a.customAudio.value.0) else s.customAudioData,
       customAudioName := if a.customAudio.Some? then a.customAudio.value.1 else s.customAudioName)
  }

  /** `loadSettings`: a stored record fills the panel with defaults and sets the variables */
  function OnLoadSettings(s: State): State {
    match s.stored
    case None => s
    case Some(saved) => Applying(s, Settings.LoadForm(saved), Settings.LoadApplied(saved))
  }

  // ---------------------------------------------------------------------
  // Runs of events

  /** What can happen to the page. A second of an interval that was cleared
      (its counter not running) does not happen, so it changes nothing. */
  datatype Event =
    | ModeButton(mode: Mode)
    | StartStopButton
    | ResetButton
    | SetButton
    | StopwatchSecond
    | TimerSecond
    | ClockSecond(now: TimeFormat.WallTime)
    | AlarmTimeInput(value: string)
    | AlarmEnabledInput(checked: bool)
    | StopwatchAlarmTimeInput(value: string)
    | StopwatchAlarmEnabledInput(checked: bool)
    | FormatInput(checked: bool)
    | SecondsInput(checked: bool)
    | FieldInput(field: PlainField, value: string)
    | AudioChosen(file: Option<Settings.AudioFile>, data: string)
    | PageLoad

  function StepOf(s: State, e: Event): Outcome {
    match e
    case ModeButton(mode) => OnSwitchMode(s, mode)
    case StartStopButton => OnStartStop(s)
    case ResetButton => OnReset(s)
    case SetButton => OnSet(s)
    case StopwatchSecond => if s.stopwatchRunning then OnStopwatchSecond(s) else Quiet(s)
    case TimerSecond => if s.timerRunning then OnTimerSecond(s) else Quiet(s)
    case ClockSecond(now) => OnClockSecond(s, now)
    case AlarmTimeInput(value) => OnAlarmTimeInput(s, value)
    case AlarmEnabledInput(checked) => OnAlarmEnabledInput(s, checked)
    case StopwatchAlarmTimeInput(value) => Quiet(OnStopwatchAlarmTimeInput(s, value))
    case StopwatchAlarmEnabledInput(checked) => Quiet(OnStopwatchAlarmEnabledInput(s, checked))
    case FormatInput(checked) => OnFormatInput(s, checked)
    case SecondsInput(checked) => OnSecondsInput(s, checked)
    case FieldInput(field, value) => Quiet(OnFieldInput(s, field, value))
    case AudioChosen(file, data) => Quiet(OnAudioChosen(s, file, data))
    case PageLoad => Quiet(OnLoadSettings(s))
  }

  /** The events one after the other, their alerts and messages in order */
  function Run(s: State, events: seq<Event>): Outcome
    decreases |events|
  {
    if events == [] then Quiet(s)
    else
      var first := StepOf(s, events[0]);
      var rest := Run(first.next, events[1..]);
      Outcome(rest.next, first.alerts + rest.alerts, first.messages + rest.messages)
  }

  /** How many of `alerts` are of `kind` */
  function Raised(alerts: seq<Alerts.Alert>, kind: Alerts.AlertKind): (n: nat)
    ensures n <= |alerts|
  {
    if alerts == [] then 0
    else (if alerts[0].kind == kind then 1 else 0) + Raised(alerts[1..], kind)
  }

  function Flag(b: bool): nat {
    if b then 1 else 0
  }

  lemma {:induction false} RaisedConcat(a: seq<Alerts.Alert>, b: seq<Alerts.Alert>, kind: Alerts.AlertKind)
    ensures Raised(a + b, kind) == Raised(a, kind) + Raised(b, kind)
  {
    if a == [] {
      assert a + b == b;
    } else {
      assert (a + b)[0] == a[0];
      assert (a + b)[1..] == a[1..] + b;
      RaisedConcat(a[1..], b, kind);
    }
  }

  // ---------------------------------------------------------------------
  // Properties of the handlers

  /** `switchMode` stops both counters, keeps both times, shows the new face;
      only the stopwatch face can raise an alert (its alarm, when due) */
  lemma SwitchModeStopsCounters(s: State, mode: Mode)
    ensures var o := OnSwitchMode(s, mode);
      && o.next.mode == mode
      && !o.next.stopwatchRunning && !o.next.timerRunning
      && o.next.stopwatchTime == s.stopwatchTime && o.next.timerTime == s.timerTime
      && o.messages == []
      && (o.alerts != [] <==> mode == StopwatchMode && StopwatchAlarmDue(s))
  {
  }

  /** A timer at zero or below does not start; a positive one starts with its warning re-armed */
  lemma StartTimerGuard(s: State)
    ensures s.timerTime <= 0 ==> OnStartTimer(s) == s
    ensures s.timerTime > 0 ==> var t := OnStartTimer(s);
      t.timerRunning && !t.timerWarningTriggered && t.timerTime == s.timerTime
  {
  }

  /** `setTimer` reads decimal minutes and seconds as `60 * minutes + seconds` */
  lemma SetTimerDecimal(s: State, minutes: nat, seconds: nat)
    requires s.panel.timerMinutes == Decimal(minutes) && s.panel.timerSeconds == Decimal(seconds)
    ensures OnSetTimer(s).next.timerTime == 60 * minutes + seconds
  {
    ParseIntDecimal(minutes);
    ParseIntDecimal(seconds);
    DisplayTimerKeepsTime(s.(timerTime := TimerSetting(s.panel)));
  }

  /** A field with no digit at all counts as 0, in either field */
  lemma SetTimerNonNumeric(s: State, minutes: nat, seconds: nat)
    requires NoDigit(s.panel.timerMinutes) || s.panel.timerMinutes == Decimal(minutes)
    requires NoDigit(s.panel.timerSeconds) || s.panel.timerSeconds == Decimal(seconds)
    requires NoDigit(s.panel.timerMinutes) || NoDigit(s.panel.timerSeconds)
    ensures OnSetTimer(s).next.timerTime
      == (if NoDigit(s.panel.timerMinutes) then 0 else 60 * minutes)
       + (if NoDigit(s.panel.timerSeconds) then 0 else seconds)
  {
    FieldValue(s.panel.timerMinutes, minutes);
    FieldValue(s.panel.timerSeconds, seconds);
    DisplayTimerKeepsTime(s.(timerTime := TimerSetting(s.panel)));
  }

  /** One timer field as `setTimer` reads it */
  lemma FieldValue(field: string, n: nat)
    requires NoDigit(field) || field == Decimal(n)
    ensures OrInt(ParseInt(field), 0) == if NoDigit(field) then 0 else n
  {
    if NoDigit(field) {
      ParseIntNoDigit(field);
    } else {
      ParseIntDecimal(n);
    }
  }

  /** `resetStopwatch` leaves the stopwatch stopped at 0 and its alarm re-armed,
      unless that alarm is due at 0 already, in which case it plays at once */
  lemma ResetStopwatchRearms(s: State)
    ensures var o := OnResetStopwatch(s);
      && !o.next.stopwatchRunning && o.next.stopwatchTime == 0
      && (o.next.stopwatchAlarmTriggered <==> s.stopwatchAlarmEnabled && AtLeast(0, s.stopwatchAlarmTime))
      && (o.alerts != [] <==> o.next.stopwatchAlarmTriggered)
  {
  }

  /** `resetTimer` leaves the timer stopped at the panel's time with its warning
      re-armed, and plays nothing */
  lemma ResetTimerQuiet(s: State)
    ensures var o := OnResetTimer(s);
      && !o.next.timerRunning && !o.next.timerWarningTriggered
      && o.next.timerTime == TimerSetting(s.panel) && o.alerts == []
  {
    var u := s.(timerRunning := false, timerWarningTriggered := false, timerTime := TimerSetting(s.panel));
    assert !TimerWarningDue(u) && !TimerExpired(u);
    assert OnResetTimer(s) == Quiet(u);
  }

  /** Each stopwatch second adds exactly one second */
  lemma StopwatchSecondAddsOne(s: State)
    ensures var o := OnStopwatchSecond(s);
      o.next.stopwatchTime == s.stopwatchTime + 1 && o.next.stopwatchRunning == s.stopwatchRunning
  {
  }

  /** The timer runs only with time left */
  predicate TimerSound(s: State) {
    s.timerRunning ==> s.timerTime > 0
  }

  /** A running timer's second never takes it below 0, and the timer alert
      plays on exactly the second that reaches 0 */
  lemma TimerSecondNeverNegative(s: State)
    requires TimerSound(s) && s.timerRunning
    ensures var o := OnTimerSecond(s);
      && o.next.timerTime == s.timerTime - 1 >= 0
      && (!o.next.timerRunning <==> s.timerTime == 1)
      && (Alerts.Alert(Alerts.TimerAlert, "") in o.alerts <==> s.timerTime == 1)
  {
    var t := s.(timerTime := s.timerTime - 1);
    var warning := Alerts.Alert(Alerts.TimerWarningAlert, Settings.OrText(Some(t.panel.timerWarningSound), "warning"));
    var w := if TimerWarningDue(t) then Outcome(t.(timerWarningTriggered := true), [warning], []) else Quiet(t);
    assert w.next.timerTime == t.timerTime && w.next.timerRunning;
    assert Alerts.Alert(Alerts.TimerAlert, "") !in w.alerts;
    if s.timerTime == 1 {
      assert OnTimerSecond(s) == Outcome(w.next.(timerRunning := false), w.alerts + [Alerts.Alert(Alerts.TimerAlert, "")], []);
    } else {
      assert OnTimerSecond(s) == w;
    }
  }

  /** The stopwatch alarm plays in a step only when its flag goes from clear to set */
  predicate StopwatchAccounted(s: State, o: Outcome) {
    Flag(s.stopwatchAlarmTriggered) + Raised(o.alerts, Alerts.StopwatchAlert) <= Flag(o.next.stopwatchAlarmTriggered)
  }

  /** The timer alert plays in a step only when the timer goes from running to stopped */
  predicate TimerAccounted(s: State, o: Outcome) {
    Flag(o.next.timerRunning) + Raised(o.alerts, Alerts.TimerAlert) <= Flag(s.timerRunning)
  }

  /** The timer warning plays in a step only when its flag goes from clear to set */
  predicate WarningAccounted(s: State, o: Outcome) {
    Flag(s.timerWarningTriggered) + Raised(o.alerts, Alerts.TimerWarningAlert) <= Flag(o.next.timerWarningTriggered)
  }

  /** A step that leaves the stopwatch alarm alone */
  predicate StopwatchUntouched(s: State, o: Outcome) {
    o.next.stopwatchAlarmTriggered == s.stopwatchAlarmTriggered && Raised(o.alerts, Alerts.StopwatchAlert) == 0
  }

  /** A step that leaves the timer alone */
  predicate TimerUntouched(s: State, o: Outcome) {
    && o.next.timerRunning == s.timerRunning && o.next.timerTime == s.timerTime
    && o.next.timerWarningTriggered == s.timerWarningTriggered
    && Raised(o.alerts, Alerts.TimerAlert) == 0 && Raised(o.alerts, Alerts.TimerWarningAlert) == 0
  }

  /** All three one-shot accounts and the timer's soundness hold across a step */
  predicate Accounted(s: State, o: Outcome) {
    && StopwatchAccounted(s, o) && TimerAccounted(s, o) && WarningAccounted(s, o)
    && (TimerSound(s) ==> TimerSound(o.next))
  }

  lemma RaisedOne(a: Alerts.Alert, kind: Alerts.AlertKind)
    ensures Raised([a], kind) == Flag(a.kind == kind)
  {
    assert [a][1..] == [];
  }

  /** Appending an alert of another kind does not change a count */
  lemma RaisedAppend(a: seq<Alerts.Alert>, x: Alerts.Alert, kind: Alerts.AlertKind)
    ensures Raised(a + [x], kind) == Raised(a, kind) + Flag(x.kind == kind)
  {
    RaisedConcat(a, [x], kind);
    RaisedOne(x, kind);
  }

  /** `displayStopwatch` plays only the stopwatch alarm, at most once per arming */
  lemma DisplayStopwatchAccounts(s: State)
    ensures var o := OnDisplayStopwatch(s);
      StopwatchAccounted(s, o) && TimerUntouched(s, o) && Raised(o.alerts, Alerts.AlarmAlert) == 0
  {
    if StopwatchAlarmDue(s) {
      var a := Alerts.Alert(Alerts.StopwatchAlert, Settings.OrText(Some(s.panel.stopwatchAlarmSound), "beep"));
      RaisedOne(a, Alerts.StopwatchAlert);
      RaisedOne(a, Alerts.TimerAlert);
      RaisedOne(a, Alerts.TimerWarningAlert);
      RaisedOne(a, Alerts.AlarmAlert);
    }
  }

  /** `displayTimer` plays the warning at most once per arming and the timer
      alert only as it stops the timer, and leaves the timer sound */
  lemma DisplayTimerAccounts(s: State)
    ensures var o := OnDisplayTimer(s);
      && TimerAccounted(s, o) && WarningAccounted(s, o) && StopwatchUntouched(s, o)
      && TimerSound(o.next) && Raised(o.alerts, Alerts.AlarmAlert) == 0
  {
    var warning := Alerts.Alert(Alerts.TimerWarningAlert, Settings.OrText(Some(s.panel.timerWarningSound), "warning"));
    var w := if TimerWarningDue(s) then Outcome(s.(timerWarningTriggered := true), [warning], []) else Quiet(s);
    forall kind | kind in {Alerts.StopwatchAlert, Alerts.TimerAlert, Alerts.TimerWarningAlert, Alerts.AlarmAlert}
      ensures Raised(w.alerts, kind) == Flag(TimerWarningDue(s) && kind == Alerts.TimerWarningAlert)
    {
      RaisedOne(warning, kind);
    }
    if TimerExpired(w.next) {
      var expiry := Alerts.Alert(Alerts.TimerAlert, "");
      forall kind | kind in {Alerts.StopwatchAlert, Alerts.TimerAlert, Alerts.TimerWarningAlert, Alerts.AlarmAlert}
        ensures Raised(w.alerts + [expiry], kind) == Raised(w.alerts, kind) + Flag(kind == Alerts.TimerAlert)
      {
        RaisedAppend(w.alerts, expiry, kind);
      }
    }
  }

  /** `updateDisplay` keeps every account */
  lemma UpdateDisplayAccounts(s: State)
    ensures Accounted(s, OnUpdateDisplay(s)) && Raised(OnUpdateDisplay(s).alerts, Alerts.AlarmAlert) == 0
  {
    match s.mode
    case StopwatchMode => DisplayStopwatchAccounts(s);
    case TimerMode => DisplayTimerAccounts(s);
    case _ =>
  }

  lemma ClockSecondAccounts(s: State, now: TimeFormat.WallTime)
    ensures Accounted(s, OnClockSecond(s, now))
  {
    UpdateDisplayAccounts(s);
    var d := OnUpdateDisplay(s);
    if AlarmDue(d.next, now) {
      var alarm := Alerts.Alert(Alerts.AlarmAlert, "");
      RaisedAppend(d.alerts, alarm, Alerts.StopwatchAlert);
      RaisedAppend(d.alerts, alarm, Alerts.TimerAlert);
      RaisedAppend(d.alerts, alarm, Alerts.TimerWarningAlert);
    }
  }

  lemma SwitchModeAccounts(s: State, mode: Mode)
    ensures Accounted(s, OnSwitchMode(s, mode))
  {
    UpdateDisplayAccounts(s.(mode := mode, stopwatchRunning := false, timerRunning := false));
  }

  lemma FormatAccounts(s: State, checked: bool)
    ensures Accounted(s, OnFormatInput(s, checked))
  {
    UpdateDisplayAccounts(s.(format24h := checked, panel := s.panel.(format24h := checked)));
  }

  lemma SecondsAccounts(s: State, checked: bool)
    ensures Accounted(s, OnSecondsInput(s, checked))
  {
    UpdateDisplayAccounts(s.(showSeconds := checked, panel := s.panel.(showSeconds := checked)));
  }

  lemma SetAccounts(s: State)
    ensures Accounted(s, OnSet(s))
  {
    if s.mode == TimerMode {
      DisplayTimerAccounts(s.(timerTime := TimerSetting(s.panel)));
    }
  }

  lemma StopwatchSecondAccounts(s: State)
    ensures Accounted(s, OnStopwatchSecond(s))
  {
    var t := s.(stopwatchTime := s.stopwatchTime + 1);
    DisplayStopwatchAccounts(t);
    assert t.timerRunning == s.timerRunning && t.timerTime == s.timerTime;
    assert t.timerWarningTriggered == s.timerWarningTriggered && t.stopwatchAlarmTriggered == s.stopwatchAlarmTriggered;
  }

  lemma TimerSecondAccounts(s: State)
    ensures Accounted(s, OnTimerSecond(s))
  {
    DisplayTimerAccounts(s.(timerTime := s.timerTime - 1));
  }

  /** The start/stop button re-arms the timer warning and may start the timer,
      but never touches the stopwatch alarm and keeps the timer sound */
  lemma StartStopAccounts(s: State)
    ensures var o := OnStartStop(s);
      StopwatchAccounted(s, o) && (TimerSound(s) ==> TimerSound(o.next))
  {
    if s.mode == TimerMode {
      var t := if s.timerRunning then OnStopTimer(s) else OnStartTimer(s);
      assert t.stopwatchAlarmTriggered == s.stopwatchAlarmTriggered;
      assert TimerSound(s) ==> TimerSound(t);
      assert OnStartStop(s) == Quiet(t);
    }
  }

  /** The reset button re-arms the alarms but never starts the timer */
  lemma ResetAccounts(s: State)
    ensures var o := OnReset(s);
      TimerAccounted(s, o) && (TimerSound(s) ==> TimerSound(o.next))
  {
    match s.mode
    case StopwatchMode =>
      var t := s.(stopwatchRunning := false, stopwatchTime := 0, stopwatchAlarmTriggered := false);
      assert OnReset(s) == OnDisplayStopwatch(t);
      DisplayStopwatchAccounts(t);
    case TimerMode =>
      ResetTimerQuiet(s);
      assert OnReset(s) == OnResetTimer(s);
    case _ =>
  }

  /** The panel's inputs leave the counters and their one-shot flags alone and
      play nothing */
  lemma PanelAccounts(s: State, e: Event)
    requires e.AlarmTimeInput? || e.AlarmEnabledInput? || e.StopwatchAlarmTimeInput?
          || e.StopwatchAlarmEnabledInput? || e.FieldInput?
    ensures var o := StepOf(s, e);
      && o.alerts == [] && o.next.stopwatchAlarmTriggered == s.stopwatchAlarmTriggered
      && o.next.timerRunning == s.timerRunning && o.next.timerTime == s.timerTime
      && o.next.timerWarningTriggered == s.timerWarningTriggered
  {
  }

  /** So do an uploaded file and the page load */
  lemma StorageAccounts(s: State, e: Event)
    requires e.AudioChosen? || e.PageLoad?
    ensures var o := StepOf(s, e);
      && o.alerts == [] && o.next.stopwatchAlarmTriggered == s.stopwatchAlarmTriggered
      && o.next.timerRunning == s.timerRunning && o.next.timerTime == s.timerTime
      && o.next.timerWarningTriggered == s.timerWarningTriggered
  {
  }

  /** What one event keeps: the stopwatch alarm's account unless it resets,
      the timer alert's unless it presses start, the warning's unless it does
      either, and the timer's soundness always */
  lemma StepAccounts(s: State, e: Event)
    ensures var o := StepOf(s, e);
      && (!e.ResetButton? ==> StopwatchAccounted(s, o))
      && (!e.StartStopButton? ==> TimerAccounted(s, o))
      && (!e.StartStopButton? && !e.ResetButton? ==> WarningAccounted(s, o))
      && (TimerSound(s) ==> TimerSound(o.next))
  {
    match e
    case ModeButton(mode) => SwitchModeAccounts(s, mode);
    case StartStopButton => StartStopAccounts(s);
    case ResetButton => ResetAccounts(s);
    case SetButton => SetAccounts(s);
    case StopwatchSecond => if s.stopwatchRunning { StopwatchSecondAccounts(s); }
    case TimerSecond => if s.timerRunning { TimerSecondAccounts(s); }
    case ClockSecond(now) => ClockSecondAccounts(s, now);
    case FormatInput(checked) => FormatAccounts(s, checked);
    case SecondsInput(checked) => SecondsAccounts(s, checked);
    case AudioChosen(file, data) => StorageAccounts(s, e);
    case PageLoad => StorageAccounts(s, e);
    case _ => PanelAccounts(s, e);
  }

  /** Over any run, the timer runs only with time left */
  lemma {:induction false} RunKeepsTimerSound(s: State, events: seq<Event>)
    requires TimerSound(s)
    ensures TimerSound(Run(s, events).next)
    decreases |events|
  {
    if events != [] {
      StepAccounts(s, events[0]);
      RunKeepsTimerSound(StepOf(s, events[0]).next, events[1..]);
    }
  }

  /** Over any run without the reset button, the stopwatch alarm plays at most
      once, and not at all when it has already played */
  lemma {:induction false} StopwatchAlarmOnce(s: State, events: seq<Event>)
    requires forall i :: 0 <= i < |events| ==> !events[i].ResetButton?
    ensures StopwatchAccounted(s, Run(s, events))
    decreases |events|
  {
    if events != [] {
      var first := StepOf(s, events[0]);
      StepAccounts(s, events[0]);
      StopwatchAlarmOnce(first.next, events[1..]);
      RaisedConcat(first.alerts, Run(first.next, events[1..]).alerts, Alerts.StopwatchAlert);
    }
  }

  /** Over any run without the start button, the timer alert plays at most
      once, and only if the timer was running */
  lemma {:induction false} TimerAlertOnce(s: State, events: seq<Event>)
    requires forall i :: 0 <= i < |events| ==> !events[i].StartStopButton?
    ensures TimerAccounted(s, Run(s, events))
    decreases |events|
  {
    if events != [] {
      var first := StepOf(s, events[0]);
      StepAccounts(s, events[0]);
      TimerAlertOnce(first.next, events[1..]);
      RaisedConcat(first.alerts, Run(first.next, events[1..]).alerts, Alerts.TimerAlert);
    }
  }

  /** Over any run without the start and reset buttons, the timer warning plays
      at most once, and not at all when it has already played */
  lemma {:induction false} TimerWarningOnce(s: State, events: seq<Event>)
    requires forall i :: 0 <= i < |events| ==> !events[i].StartStopButton? && !events[i].ResetButton?
    ensures WarningAccounted(s, Run(s, events))
    decreases |events|
  {
    if events != [] {
      var first := StepOf(s, events[0]);
      StepAccounts(s, events[0]);
      TimerWarningOnce(first.next, events[1..]);
      RaisedConcat(first.alerts, Run(first.next, events[1..]).alerts, Alerts.TimerWarningAlert);
    }
  }

  /** With the alarm set through the time input to `HH:MM`, the clock alarm is
      due exactly at that hour and minute, on second 0, while enabled */
  lemma AlarmDueAtKey(s: State, now: TimeFormat.WallTime, h: nat, m: nat)
    requires TimeFormat.ValidWallTime(now)
    requires s.alarmTime == TimeFormat.AlarmKey(h, m)
    ensures AlarmDue(s, now) <==> s.alarmEnabled && now.hours == h && now.minutes == m && now.seconds == 0
  {
    assert WallKey(now) == TimeFormat.AlarmKey(now.hours, now.minutes);
    TimeFormat.AlarmKeyInjective(now.hours, now.minutes, h, m);
  }

  /** Setting the alarm to `HH:MM` schedules minute `HH * 60 + MM` with the
      service worker under the page's id; once enabled, the worker's entry is
      due at that minute and its notification shows the same `HH:MM`. */
  lemma AlarmTimeReachesWorker(s: State, h: nat, m: nat, table: map<string, Background.Entry>, nowMs: int)
    requires h < 24 && m < 60
    ensures var o := OnAlarmTimeInput(s, TimeFormat.AlarmKey(h, m));
      && o.messages == [Background.ScheduleAlarm(MainAlarmId, Int(h * 60 + m), s.panel.alarmSound, s.alarmEnabled)]
      && (s.alarmEnabled ==>
            var entry := Background.Apply(table, o.messages[0], nowMs)[MainAlarmId];
            Background.Fires(entry, h * 60 + m)
            && Background.NoteOf(MainAlarmId, entry, h * 60 + m).clock == TimeFormat.AlarmKey(h, m))
  {
    var key := TimeFormat.AlarmKey(h, m);
    TimeFormat.AlarmKeyMinutes(h, m);
    Background.NotificationShowsAlarmKey(h, m);
    var t := OnSaveSettings(s.(alarmTime := key, panel := s.panel.(alarmTime := key)));
    assert t.panel.alarmSound == s.panel.alarmSound && t.alarmEnabled == s.alarmEnabled;
    assert OnAlarmTimeInput(s, key).messages == [ScheduleMain(key, t.panel.alarmSound, t.alarmEnabled)];
  }

  /** Switching the alarm off cancels the worker's entry */
  lemma AlarmOffCancels(s: State, table: map<string, Background.Entry>, nowMs: int)
    ensures var o := OnAlarmEnabledInput(s, false);
      && o.messages == [Background.CancelAlarm(MainAlarmId)]
      && MainAlarmId !in Background.Apply(table, o.messages[0], nowMs)
      && !o.next.alarmEnabled
  {
  }

  /** Saving and then loading gives the panel back whenever no text field was
      left empty, and sets the alarm variables from it */
  lemma LoadAfterSave(s: State)
    requires s.panel.alarmTime != "" && s.panel.alarmSound != "" && s.panel.timerMinutes != ""
    requires s.panel.timerSeconds != "" && s.panel.timerWarningTime != "" && s.panel.timerWarningSound != ""
    requires s.panel.stopwatchAlarmTime != "" && s.panel.stopwatchAlarmSound != ""
    ensures var t := OnLoadSettings(OnSaveSettings(s));
      && t.panel == s.panel
      && t.alarmTime == s.panel.alarmTime && t.alarmEnabled == s.panel.alarmEnabled
      && t.stopwatchAlarmEnabled == s.panel.stopwatchAlarmEnabled
      && t.stopwatchAlarmTime == TimeFormat.StopwatchAlarmSeconds(s.panel.stopwatchAlarmTime)
      && t.format24h == s.panel.format24h && t.showSeconds == s.panel.showSeconds
  {
    Settings.LoadSaveForm(s.panel, s.customAudioData, s.customAudioName);
  }

  /** Only an accepted file replaces the custom audio */
  lemma AudioChosenOnlyIfAccepted(s: State, file: Option<Settings.AudioFile>, data: string)
    ensures var t := OnAudioChosen(s, file, data);
      && (Settings.CheckUpload(file) != Settings.Accepted ==> t == s)
      && (Settings.CheckUpload(file) == Settings.Accepted ==>
            t.customAudioData == Some(data) && t.customAudioName == file.value.name
            && t.stored.Some? && t.stored.value.customAudioData == Some(data))
  {
  }

  // ---------------------------------------------------------------------
  // The page's variables, updated in place

  class Watch {
    var mode: Mode
    var stopwatchRunning: bool
    var timerRunning: bool
    var stopwatchTime: int
    var timerTime: int
    var alarmTime: string
    var alarmEnabled: bool
    var stopwatchAlarmTime: Num
    var stopwatchAlarmEnabled: bool
    var stopwatchAlarmTriggered: bool
    var timerWarningTime: int
    var timerWarningTriggered: bool
    var format24h: bool
    var showSeconds: bool
    var customAudioData: Option<string>
    var customAudioName: string
    /** The configuration panel's inputs */
    var panel: Settings.Form
    /** `localStorage['cockpitWatchSettings']` */
    var stored: Option<Settings.Saved>

    function Snapshot(): State
      reads this
    {
      State(mode, stopwatchRunning, timerRunning, stopwatchTime, timerTime, alarmTime, alarmEnabled,
            stopwatchAlarmTime, stopwatchAlarmEnabled, stopwatchAlarmTriggered, timerWarningTime,
            timerWarningTriggered, format24h, showSeconds, customAudioData, customAudioName, panel, stored)
    }

    /** The page as loaded, before `loadSettings` */
    constructor (form: Settings.Form, saved: Option<Settings.Saved>)
      ensures Snapshot() == Initial(form, saved)
    {
      mode, stopwatchRunning, timerRunning := ClockMode, false, false;
      stopwatchTime, timerTime := 0, 0;
      alarmTime, alarmEnabled := "", false;
      stopwatchAlarmTime, stopwatchAlarmEnabled, stopwatchAlarmTriggered := Int(300), false, false;
      timerWarningTime, timerWarningTriggered := 10, false;
      format24h, showSeconds := true, true;
      customAudioData, customAudioName := None, "";
      panel, stored := form, saved;
    }

    method DisplayStopwatch() returns (alerts: seq<Alerts.Alert>)
      modifies this
      ensures Snapshot() == OnDisplayStopwatch(old(Snapshot())).next
      ensures alerts == OnDisplayStopwatch(old(Snapshot())).alerts
    {
      alerts := [];
      if stopwatchAlarmEnabled && !stopwatchAlarmTriggered && AtLeast(stopwatchTime, stopwatchAlarmTime) {
        stopwatchAlarmTriggered := true;
        var soundType := Settings.OrText(Some(panel.stopwatchAlarmSound), "beep");
        alerts := [Alerts.Alert(Alerts.StopwatchAlert, soundType)];
      }
    }

    method DisplayTimer() returns (alerts: seq<Alerts.Alert>)
      modifies this
      ensures Snapshot() == OnDisplayTimer(old(Snapshot())).next
      ensures alerts == OnDisplayTimer(old(Snapshot())).alerts
    {
      alerts := [];
      if timerRunning && !timerWarningTriggered && timerTime <= timerWarningTime && timerTime > 0 {
        timerWarningTriggered := true;
        var soundType := Settings.OrText(Some(panel.timerWarningSound), "warning");
        alerts := [Alerts.Alert(Alerts.TimerWarningAlert, soundType)];
      }
      if timerTime <= 0 && timerRunning {
        timerRunning := false;
        alerts := alerts + [Alerts.Alert(Alerts.TimerAlert, "")];
      }
    }

    method UpdateDisplay() returns (alerts: seq<Alerts.Alert>)
      modifies this
      ensures Snapshot() == OnUpdateDisplay(old(Snapshot())).next
      ensures alerts == OnUpdateDisplay(old(Snapshot())).alerts
    {
      match mode
      case StopwatchMode => alerts := DisplayStopwatch();
      case TimerMode => alerts := DisplayTimer();
      case _ => alerts := [];
    }

    /** The clock's one-second interval */
    method ClockSecond(now: TimeFormat.WallTime) returns (alerts: seq<Alerts.Alert>)
      modifies this
      ensures Snapshot() == OnClockSecond(old(Snapshot()), now).next
      ensures alerts == OnClockSecond(old(Snapshot()), now).alerts
    {
      alerts := UpdateDisplay();
      var due := CheckAlarm(now);
      if due {
        alerts := alerts + [Alerts.Alert(Alerts.AlarmAlert, "")];
      }
    }

    /** `checkAlarm`: whether the clock alarm plays now */
    method CheckAlarm(now: TimeFormat.WallTime) returns (due: bool)
      ensures due == AlarmDue(Snapshot(), now)
    {
      if !alarmEnabled || alarmTime == "" {
        return false;
      }
      var currentTime := PadStart2(now.hours) + ":" + PadStart2(now.minutes);
      due := currentTime == alarmTime && now.seconds == 0;
    }

    method SwitchMode(newMode: Mode) returns (alerts: seq<Alerts.Alert>)
      modifies this
      ensures Snapshot() == OnSwitchMode(old(Snapshot()), newMode).next
      ensures alerts == OnSwitchMode(old(Snapshot()), newMode).alerts
    {
      EnterMode(newMode);
      alerts := UpdateDisplay();
    }

    /** The assignments of `switchMode` before the face is redrawn */
    method EnterMode(newMode: Mode)
      modifies this`mode, this`stopwatchRunning, this`timerRunning
      ensures mode == newMode && !stopwatchRunning && !timerRunning
    {
      mode := newMode;
      stopwatchRunning := false;
      timerRunning := false;
    }

    method StartStopwatch()
      modifies this
      ensures Snapshot() == OnStartStopwatch(old(Snapshot()))
    {
      stopwatchRunning := true;
    }

    method StopStopwatch()
      modifies this
      ensures Snapshot() == OnStopStopwatch(old(Snapshot()))
    {
      stopwatchRunning := false;
    }

    method ResetStopwatch() returns (alerts: seq<Alerts.Alert>)
      modifies this
      ensures Snapshot() == OnResetStopwatch(old(Snapshot())).next
      ensures alerts == OnResetStopwatch(old(Snapshot())).alerts
    {
      StopStopwatch();
      stopwatchTime := 0;
      stopwatchAlarmTriggered := false;
      alerts := DisplayStopwatch();
    }

    /** One second of the stopwatch's interval, which exists only while it runs */
    method StopwatchSecond() returns (alerts: seq<Alerts.Alert>)
      requires stopwatchRunning
      modifies this
      ensures Snapshot() == OnStopwatchSecond(old(Snapshot())).next
      ensures alerts == OnStopwatchSecond(old(Snapshot())).alerts
    {
      stopwatchTime := stopwatchTime + 1;
      alerts := DisplayStopwatch();
    }

    method StartTimer()
      modifies this
      ensures Snapshot() == OnStartTimer(old(Snapshot()))
    {
      if timerTime > 0 {
        timerRunning := true;
        timerWarningTriggered := false;
      }
    }

    method StopTimer()
      modifies this
      ensures Snapshot() == OnStopTimer(old(Snapshot()))
    {
      timerRunning := false;
    }

    method SetTimer() returns (alerts: seq<Alerts.Alert>)
      modifies this
      ensures Snapshot() == OnSetTimer(old(Snapshot())).next
      ensures alerts == OnSetTimer(old(Snapshot())).alerts
    {
      var minutes := OrInt(ParseInt(panel.timerMinutes), 0);
      var seconds := OrInt(ParseInt(panel.timerSeconds), 0);
      alerts := ShowTimer(minutes * 60 + seconds);
    }

    /** `setTimer` once the panel has been read: the new time, then the face */
    method ShowTimer(time: int) returns (alerts: seq<Alerts.Alert>)
      modifies this
      ensures Snapshot() == OnDisplayTimer(old(Snapshot()).(timerTime := time)).next
      ensures alerts == OnDisplayTimer(old(Snapshot()).(timerTime := time)).alerts
    {
      timerTime := time;
      alerts := DisplayTimer();
    }

    method ResetTimer() returns (alerts: seq<Alerts.Alert>)
      modifies this
      ensures Snapshot() == OnResetTimer(old(Snapshot())).next
      ensures alerts == OnResetTimer(old(Snapshot())).alerts
    {
      StopTimer();
      timerWarningTriggered := false;
      alerts := SetTimer();
    }

    /** One second of the timer's interval, which exists only while it runs */
    method TimerSecond() returns (alerts: seq<Alerts.Alert>)
      requires timerRunning
      modifies this
      ensures Snapshot() == OnTimerSecond(old(Snapshot())).next
      ensures alerts == OnTimerSecond(old(Snapshot())).alerts
    {
      timerTime := timerTime - 1;
      alerts := DisplayTimer();
    }

    method HandleStartStop()
      modifies this
      ensures Snapshot() == OnStartStop(old(Snapshot())).next
    {
      match mode
      case StopwatchMode =>
        if stopwatchRunning {
          StopStopwatch();
        } else {
          StartStopwatch();
        }
      case TimerMode =>
        if timerRunning {
          StopTimer();
        } else {
          StartTimer();
        }
      case _ =>
    }

    method HandleReset() returns (alerts: seq<Alerts.Alert>)
      modifies this
      ensures Snapshot() == OnReset(old(Snapshot())).next
      ensures alerts == OnReset(old(Snapshot())).alerts
    {
      match mode
      case StopwatchMode => alerts := ResetStopwatch();
      case TimerMode => alerts := ResetTimer();
      case _ => alerts := [];
    }

    method HandleSet() returns (alerts: seq<Alerts.Alert>)
      modifies this
      ensures Snapshot() == OnSet(old(Snapshot())).next
      ensures alerts == OnSet(old(Snapshot())).alerts
    {
      alerts := [];
      if mode == TimerMode {
        alerts := SetTimer();
      }
    }

    method SaveSettings()
      modifies this
      ensures Snapshot() == OnSaveSettings(old(Snapshot()))
    {
      stored := Some(Settings.Save(panel, customAudioData, customAudioName));
    }

    method UpdateAlarmTime(value: string) returns (messages: seq<Background.Message>)
      modifies this
      ensures Snapshot() == OnAlarmTimeInput(old(Snapshot()), value).next
      ensures messages == OnAlarmTimeInput(old(Snapshot()), value).messages
    {
      panel := panel.(alarmTime := value);
      alarmTime := panel.alarmTime;
      SaveSettings();
      messages := [];
      if alarmTime != "" {
        messages := [ScheduleMain(alarmTime, panel.alarmSound, alarmEnabled)];
      }
    }

    method ToggleAlarm(checked: bool) returns (messages: seq<Background.Message>)
      modifies this
      ensures Snapshot() == OnAlarmEnabledInput(old(Snapshot()), checked).next
      ensures messages == OnAlarmEnabledInput(old(Snapshot()), checked).messages
    {
      panel := panel.(alarmEnabled := checked);
      alarmEnabled := panel.alarmEnabled;
      messages := [];
      if alarmEnabled {
        if alarmTime != "" {
          messages := [ScheduleMain(alarmTime, panel.alarmSound, true)];
        }
      } else {
        messages := [Background.CancelAlarm(MainAlarmId)];
      }
      SaveSettings();
    }

    method UpdateStopwatchAlarmTime(value: string)
      modifies this
      ensures Snapshot() == OnStopwatchAlarmTimeInput(old(Snapshot()), value)
    {
      panel := panel.(stopwatchAlarmTime := value);
      var timeValue := panel.stopwatchAlarmTime;
      if timeValue != "" {
        stopwatchAlarmTime := TimeFormat.StopwatchAlarmSeconds(timeValue);
        SaveSettings();
      }
    }

    method ToggleStopwatchAlarm(checked: bool)
      modifies this
      ensures Snapshot() == OnStopwatchAlarmEnabledInput(old(Snapshot()), checked)
    {
      panel := panel.(stopwatchAlarmEnabled := checked);
      stopwatchAlarmEnabled := panel.stopwatchAlarmEnabled;
      SaveSettings();
    }

    method ToggleFormat(checked: bool) returns (alerts: seq<Alerts.Alert>)
      modifies this
      ensures Snapshot() == OnFormatInput(old(Snapshot()), checked).next
      ensures alerts == OnFormatInput(old(Snapshot()), checked).alerts
    {
      panel := panel.(format24h := checked);
      format24h := panel.format24h;
      alerts := UpdateDisplay();
      SaveSettings();
    }

    method ToggleSeconds(checked: bool) returns (alerts: seq<Alerts.Alert>)
      modifies this
      ensures Snapshot() == OnSecondsInput(old(Snapshot()), checked).next
      ensures alerts == OnSecondsInput(old(Snapshot()), checked).alerts
    {
      panel := panel.(showSeconds := checked);
      showSeconds := panel.showSeconds;
      alerts := UpdateDisplay();
      SaveSettings();
    }

    /** A plain input's change handler */
    method FieldChanged(field: PlainField, value: string)
      modifies this
      ensures Snapshot() == OnFieldInput(old(Snapshot()), field, value)
    {
      panel := WithField(panel, field, value);
      SaveSettings();
    }

    /** `handleCustomAudioSelection`, with the reader's result `data` */
    method HandleCustomAudioSelection(file: Option<Settings.AudioFile>, data: string)
      modifies this
      ensures Snapshot() == OnAudioChosen(old(Snapshot()), file, data)
    {
      if Settings.CheckUpload(file) != Settings.Accepted {
        return;
      }
      customAudioData := Some(data);
      customAudioName := file.value.name;
      SaveSettings();
    }

    method LoadSettings()
      modifies this
      ensures Snapshot() == OnLoadSettings(old(Snapshot()))
    {
      if stored.Some? {
        var settings := stored.value;
        ApplySettings(Settings.LoadForm(settings), Settings.LoadApplied(settings));
      }
    }

    // The groups of assignments in `loadSettings`, once the record has been read

    /** The assignments of `loadSettings` once the saved record has been read and converted */
    method ApplySettings(form: Settings.Form, applied: Settings.Applied)
      modifies this
      ensures Snapshot() == Applying(old(Snapshot()), form, applied)
    {
      WriteSettings(form, applied);
    }

    /** The same assignments, each field named in the frame */
    method WriteSettings(form: Settings.Form, applied: Settings.Applied)
      modifies this`panel, this`alarmTime, this`alarmEnabled, this`timerWarningTime, this`stopwatchAlarmEnabled
      modifies this`stopwatchAlarmTime, this`format24h, this`showSeconds, this`customAudioData, this`customAudioName
      ensures panel == form
      ensures alarmTime == applied.alarmTime && alarmEnabled == applied.alarmEnabled
      ensures timerWarningTime == applied.timerWarningTime
      ensures stopwatchAlarmEnabled == applied.stopwatchAlarmEnabled
      ensures stopwatchAlarmTime == if applied.stopwatchAlarmTime.Some? then applied.stopwatchAlarmTime.value
                                    else old(stopwatchAlarmTime)
      ensures format24h == applied.format24h && showSeconds == applied.showSeconds
      ensures customAudioData == if applied.customAudio.Some? then Some(applied.customAudio.value.0) else old(customAudioData)
      ensures customAudioName == if applied.customAudio.Some? then applied.customAudio.value.1 else old(customAudioName)
    {
      panel := form;
      ApplyAlarm(applied);
      ApplyCounters(applied);
      ApplyDisplay(applied);
      ApplyCustomAudio(applied);
    }

    method ApplyAlarm(applied: Settings.Applied)
      modifies this`alarmTime, this`alarmEnabled
      ensures alarmTime == applied.alarmTime && alarmEnabled == applied.alarmEnabled
    {
      alarmTime := applied.alarmTime;
      alarmEnabled := applied.alarmEnabled;
    }

    method ApplyCounters(applied: Settings.Applied)
      modifies this`timerWarningTime, this`stopwatchAlarmEnabled, this`stopwatchAlarmTime
      ensures timerWarningTime == applied.timerWarningTime
      ensures stopwatchAlarmEnabled == applied.stopwatchAlarmEnabled
      ensures stopwatchAlarmTime == if applied.stopwatchAlarmTime.Some? then applied.stopwatchAlarmTime.value
                                    else old(stopwatchAlarmTime)
    {
      timerWarningTime := applied.timerWarningTime;
      stopwatchAlarmEnabled := applied.stopwatchAlarmEnabled;
      if applied.stopwatchAlarmTime.Some? {
        stopwatchAlarmTime := applied.stopwatchAlarmTime.value;
      }
    }

    method ApplyDisplay(applied: Settings.Applied)
      modifies this`format24h, this`showSeconds
      ensures format24h == applied.format24h && showSeconds == applied.showSeconds
    {
      format24h := applied.format24h;
      showSeconds := applied.showSeconds;
    }

    method ApplyCustomAudio(applied: Settings.Applied)
      modifies this`customAudioData, this`customAudioName
      ensures customAudioData == if applied.customAudio.Some? then Some(applied.customAudio.value.0) else old(customAudioData)
      ensures customAudioName == if applied.customAudio.Some? then applied.customAudio.value.1 else old(customAudioName)
    {
      if applied.customAudio.Some? {
        customAudioData := Some(applied.customAudio.value.0);
        customAudioName := applied.customAudio.value.1;
      }
    }
  }
}
