/**
 * The autosave indicator beside the wizard's step buttons: nothing while idle, a spinner while
 * saving, and the time since the last save once saved. The clock is a parameter: the indicator
 * is given the elapsed milliseconds, and how the browser prints a date is a given string.
 */
module AutosaveIndicator {
  import opened Text
  import opened Wrappers
  import opened Wizard

  const SecondMs: int := 1000

  /** `formatTimeAgo(date)`, from the milliseconds elapsed since `date`. Every division is
      `Math.floor` of a division by a positive number, which on integers is Dafny's `/`. */
  function TimeAgo(elapsed: int, localeDate: string): string {
    var seconds := elapsed / SecondMs;
    if seconds < 60 then "just now"
    else
      var minutes := seconds / 60;
      if minutes < 60 then NatToString(minutes) + "m ago"
      else
        var hours := minutes / 60;
        if hours < 24 then NatToString(hours) + "h ago"
        else localeDate
  }

  /** Whole minutes from whole seconds are whole minutes from milliseconds. */
  lemma MinutesOf(x: int)
    ensures x / 1000 / 60 == x / 60000
  {
    var q := x / 60000;
    var r := x % 60000;
    assert x == 60000 * q + r;
    assert x / 1000 == 60 * q + r / 1000;
  }

  /** Whole hours from whole minutes are whole hours from milliseconds. */
  lemma HoursOf(x: int)
    ensures x / 1000 / 60 / 60 == x / 3600000
  {
    MinutesOf(x);
    var q := x / 3600000;
    var r := x % 3600000;
    assert x == 3600000 * q + r;
    assert x / 60000 == 60 * q + r / 60000;
  }

  /** The four bands of the message: under a minute it is "just now"; then whole minutes up to an
      hour, whole hours up to a day, and after that the date. The number shown is the whole
      number of elapsed minutes or hours. */
  lemma TimeAgoBands(elapsed: int, localeDate: string)
    ensures elapsed < 60000 ==> TimeAgo(elapsed, localeDate) == "just now"
    ensures 60000 <= elapsed < 3600000 ==>
      TimeAgo(elapsed, localeDate) == NatToString(elapsed / 60000) + "m ago" && 1 <= elapsed / 60000 < 60
    ensures 3600000 <= elapsed < 86400000 ==>
      TimeAgo(elapsed, localeDate) == NatToString(elapsed / 3600000) + "h ago" && 1 <= elapsed / 3600000 < 24
    ensures elapsed >= 86400000 ==> TimeAgo(elapsed, localeDate) == localeDate
  {
    MinutesOf(elapsed);
    HoursOf(elapsed);
  }

  /** A save in the future (a clock set back) still reads "just now". */
  lemma FutureSaveIsJustNow(elapsed: int, localeDate: string)
    requires elapsed < 0
    ensures TimeAgo(elapsed, localeDate) == "just now"
  {
    TimeAgoBands(elapsed, localeDate);
  }

  /** Within the minute band, two different whole minutes give two different messages. */
  lemma MinutesDistinguished(e1: int, e2: int, localeDate: string)
    requires 60000 <= e1 < 3600000 && 60000 <= e2 < 3600000
    ensures TimeAgo(e1, localeDate) == TimeAgo(e2, localeDate) <==> e1 / 60000 == e2 / 60000
  {
    TimeAgoBands(e1, localeDate);
    TimeAgoBands(e2, localeDate);
    var m1, m2 := NatToString(e1 / 60000), NatToString(e2 / 60000);
    if m1 + "m ago" == m2 + "m ago" {
      assert (m1 + "m ago")[..|m1 + "m ago"| - 5] == m1;
      assert (m2 + "m ago")[..|m2 + "m ago"| - 5] == m2;
    }
    NatToStringInjective(e1 / 60000, e2 / 60000);
  }

  datatype Icon = Spinner | Check | Alert

  /** What the indicator renders: nothing, or an icon with a message. */
  datatype View = Hidden | Shown(icon: Icon, message: string)

  /** `getIcon` and `getMessage`, with `lastSaved` as the elapsed time since the save. */
  function Render(status: AutosaveStatus, sinceSave: Option<int>, localeDate: string): (r: View)
    ensures r.Hidden? <==> status == Idle
    ensures status == Saving ==> r == Shown(Spinner, "Saving...")
    ensures status == SaveError ==> r == Shown(Alert, "Save failed")
    ensures status == Saved ==> r.Shown? && r.icon == Check && IsPrefix("Saved", r.message)
    ensures status == Saved && sinceSave.None? ==> r.message == "Saved"
  {
    match status
    case Idle => Hidden
    case Saving => Shown(Spinner, "Saving...")
    case Saved =>
      var m := if sinceSave.Some? then "Saved " + TimeAgo(sinceSave.value, localeDate) else "Saved";
      assert m[..5] == "Saved";
      Shown(Check, m)
    case SaveError => Shown(Alert, "Save failed")
  }

  /** Right after a save the indicator says "Saved just now". */
  lemma FreshSave(elapsed: int, localeDate: string)
    requires 0 <= elapsed < 60000
    ensures Render(Saved, Some(elapsed), localeDate) == Shown(Check, "Saved just now")
  {
    TimeAgoBands(elapsed, localeDate);
  }
}
