/** The settings record kept in local storage, the default-filling rule that
    restores it, and the validation of a user-chosen alarm audio file. */
module Settings {
  import opened JsValues
  import TimeFormat

  /** The configuration panel's inputs: `.value` of the text, time and
      select fields, `.checked` of the check boxes. */
  datatype Form = Form(
    alarmTime: string,
    alarmSound: string,
    alarmEnabled: bool,
    timerMinutes: string,
    timerSeconds: string,
    timerWarningTime: string,
    timerWarningSound: string,
    stopwatchAlarmTime: string,
    stopwatchAlarmSound: string,
    stopwatchAlarmEnabled: bool,
    format24h: bool,
    showSeconds: bool)

  /** The record stored under 'cockpitWatchSettings' after the JSON round
      trip; a key that is missing or null reads as None. */
  datatype Saved = Saved(
    alarmTime: Option<string>,
    alarmSound: Option<string>,
    alarmEnabled: Option<bool>,
    timerMinutes: Option<string>,
    timerSeconds: Option<string>,
    timerWarningTime: Option<string>,
    timerWarningSound: Option<string>,
    stopwatchAlarmTime: Option<string>,
    stopwatchAlarmSound: Option<string>,
    stopwatchAlarmEnabled: Option<bool>,
    format24h: Option<bool>,
    showSeconds: Option<bool>,
    customAudioData: Option<string>,
    customAudioName: Option<string>)

  /** A record with no keys at all */
  const NoKeys := Saved(None, None, None, None, None, None, None, None, None, None, None, None, None, None)

  /** `saveSettings`: every field of the panel, plus the custom audio */
  function Save(form: Form, customAudioData: Option<string>, customAudioName: string): Saved {
    Saved(Some(form.alarmTime), Some(form.alarmSound), Some(form.alarmEnabled),
          Some(form.timerMinutes), Some(form.timerSeconds),
          Some(form.timerWarningTime), Some(form.timerWarningSound),
          Some(form.stopwatchAlarmTime), Some(form.stopwatchAlarmSound), Some(form.stopwatchAlarmEnabled),
          Some(form.format24h), Some(form.showSeconds),
          customAudioData, Some(customAudioName))
  }

  /** A string is truthy when it is present and not empty */
  predicate Truthy(v: Option<string>) {
    v.Some? && v.value != ""
  }

  /** `v || d` for a string setting */
  function OrText(v: Option<string>, d: string): (r: string)
    ensures Truthy(v) ==> r == v.value
    ensures !Truthy(v) ==> r == d
  {
    if Truthy(v) then v.value else d
  }

  /** `v || false` for a boolean setting */
  function OrFalse(v: Option<bool>): bool {
    v == Some(true)
  }

  /** `v !== false`: a missing boolean setting reads as true */
  function NotFalse(v: Option<bool>): bool {
    v != Some(false)
  }

  /** The panel as `loadSettings` fills it from a stored record */
  function LoadForm(s: Saved): (f: Form)
    ensures f.alarmTime != "" && f.alarmSound != "" && f.timerMinutes != "" && f.timerSeconds != ""
    ensures f.timerWarningTime != "" && f.timerWarningSound != ""
    ensures f.stopwatchAlarmTime != "" && f.stopwatchAlarmSound != ""
  {
    Form(OrText(s.alarmTime, "07:00"), OrText(s.alarmSound, "beep"), OrFalse(s.alarmEnabled),
         OrText(s.timerMinutes, "5"), OrText(s.timerSeconds, "0"),
         OrText(s.timerWarningTime, "10"), OrText(s.timerWarningSound, "warning"),
         OrText(s.stopwatchAlarmTime, "00:05:00"), OrText(s.stopwatchAlarmSound, "beep"),
         OrFalse(s.stopwatchAlarmEnabled),
         NotFalse(s.format24h), NotFalse(s.showSeconds))
  }

  /** The panel as it shows when nothing has been stored */
  const DefaultForm := Form("07:00", "beep", false, "5", "0", "10", "warning", "00:05:00", "beep", false, true, true)

  /** The values `loadSettings` assigns to the watch's own variables
      (as opposed to the panel). `stopwatchAlarmTime` is None when the
      stored string is falsy, in which case the variable keeps its value;
      `customAudio` is Some((data, name)) only when both are truthy. */
  datatype Applied = Applied(
    alarmTime: string,
    alarmEnabled: bool,
    timerWarningTime: int,
    stopwatchAlarmEnabled: bool,
    stopwatchAlarmTime: Option<Num>,
    format24h: bool,
    showSeconds: bool,
    customAudio: Option<(string, string)>)

  function LoadApplied(s: Saved): (a: Applied)
    ensures a.timerWarningTime != 0
    ensures a.stopwatchAlarmTime.Some? <==> Truthy(s.stopwatchAlarmTime)
    ensures a.customAudio.Some? ==> a.customAudio.value.0 != "" && a.customAudio.value.1 != ""
  {
    Applied(
      // `alarmTime = settings.alarmTime`: a missing value is falsy, like ""
      if s.alarmTime.Some? then s.alarmTime.value else "",
      OrFalse(s.alarmEnabled),
      OrInt(ParseInt(if s.timerWarningTime.Some? then s.timerWarningTime.value else ""), 10),
      OrFalse(s.stopwatchAlarmEnabled),
      if Truthy(s.stopwatchAlarmTime) then Some(TimeFormat.StopwatchAlarmSeconds(s.stopwatchAlarmTime.value)) else None,
      NotFalse(s.format24h),
      NotFalse(s.showSeconds),
      if Truthy(s.customAudioData) && Truthy(s.customAudioName)
      then Some((s.customAudioData.value, s.customAudioName.value)) else None)
  }

  /** Saving and loading gives the panel back, field for field, whenever no
      text field was left empty (an empty field takes its default instead). */
  lemma LoadSaveForm(form: Form, customAudioData: Option<string>, customAudioName: string)
    requires form.alarmTime != "" && form.alarmSound != "" && form.timerMinutes != "" && form.timerSeconds != ""
    requires form.timerWarningTime != "" && form.timerWarningSound != ""
    requires form.stopwatchAlarmTime != "" && form.stopwatchAlarmSound != ""
    ensures LoadForm(Save(form, customAudioData, customAudioName)) == form
  {
  }

  /** Loading a record with no keys fills every field with its default */
  lemma LoadNoKeys()
    ensures LoadForm(NoKeys) == DefaultForm
    ensures LoadApplied(NoKeys) == Applied("", false, 10, false, None, true, true, None)
  {
    ParseIntNoDigit("");
  }

  /** Saving and loading restores the watch's variables from the panel: the
      alarm time and switches as shown, a positive decimal warning time as
      that number, and the stopwatch alarm time as the seconds its HH:MM:SS spells. */
  lemma LoadSaveApplied(form: Form, customAudioData: Option<string>, customAudioName: string,
                        warning: nat, h: nat, m: nat, sec: nat)
    requires warning > 0 && form.timerWarningTime == Decimal(warning)
    requires form.stopwatchAlarmTime == TimeFormat.AlarmKey(h, m) + ":" + Pad2(sec)
    ensures var a := LoadApplied(Save(form, customAudioData, customAudioName));
      && a.alarmTime == form.alarmTime
      && a.alarmEnabled == form.alarmEnabled
      && a.timerWarningTime == warning
      && a.stopwatchAlarmEnabled == form.stopwatchAlarmEnabled
      && a.stopwatchAlarmTime == Some(Int(h * 3600 + m * 60 + sec))
      && a.format24h == form.format24h
      && a.showSeconds == form.showSeconds
      && (a.customAudio.Some? <==> Truthy(customAudioData) && customAudioName != "")
  {
    ParseIntDecimal(warning);
    TimeFormat.StopwatchAlarmSecondsOfKey(h, m, sec);
  }

  /** A chosen file as the file input reports it */
  datatype AudioFile = AudioFile(name: string, mimeType: string, size: nat)

  datatype UploadCheck = NoFile | UnsupportedFormat | TooLarge | Accepted

  const ValidFormats: seq<string> := ["audio/mpeg", "audio/wav", "audio/ogg", "audio/mp4", "audio/m4a"]

  /** 10 MB */
  const MaxUploadBytes: nat := 10 * 1024 * 1024

  /** `handleCustomAudioSelection`'s checks, in order: a file must be chosen,
      its type must be on the list, and it may not exceed 10 MB. */
  function CheckUpload(file: Option<AudioFile>): (r: UploadCheck)
    ensures r == Accepted <==> file.Some? && file.value.mimeType in ValidFormats && file.value.size <= MaxUploadBytes
    ensures r == UnsupportedFormat <==> file.Some? && file.value.mimeType !in ValidFormats
    ensures r == TooLarge <==> file.Some? && file.value.mimeType in ValidFormats && file.value.size > MaxUploadBytes
  {
    if file.None? then NoFile
    else if file.value.mimeType !in ValidFormats then UnsupportedFormat
    else if file.value.size > MaxUploadBytes then TooLarge
    else Accepted
  }
}
