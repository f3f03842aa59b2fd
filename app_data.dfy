/**
 * The fixed option lists of the application forms and the fiscal-year helper.
 */
module AppData {
  import opened Json
  import opened Text
  import opened Form
  import Schema

  const CompanyTypes: seq<string> := ["Sole Proprietorship", "Partnership", "LLC", "S-Corp", "C-Corp", "Nonprofit", "Other"]

  datatype Month = Month(value: string, caption: string)

  const FiscalMonths: seq<Month> := [
    Month("january", "January"), Month("february", "February"), Month("march", "March"),
    Month("april", "April"), Month("may", "May"), Month("june", "June"),
    Month("july", "July"), Month("august", "August"), Month("september", "September"),
    Month("october", "October"), Month("november", "November"), Month("december", "December")
  ]

  const MeetingPreferences: seq<string> := ["In-person", "Virtual", "Hybrid"]

  datatype MatrixOption = MatrixOption(value: string, caption: string, description: string)

  const MatrixOptions: seq<MatrixOption> := [
    MatrixOption("S", "S", "Strength"), MatrixOption("C", "C", "Competent"),
    MatrixOption("N", "N", "Need"), MatrixOption("NA", "N/A", "Not Applicable")
  ]

  /** The three years the financial table of mentee step 4 asks about. */
  datatype Years = Years(last2: int, last1: int, currentEst: int)

  /** `getCurrentYears()`, given the current year. */
  function CurrentYears(year: int): (r: Years)
    ensures r.last2 < r.last1 < r.currentEst == year
    ensures r.currentEst - r.last2 == 2
  {
    Years(year - 2, year - 1, year)
  }

  /** The company type select offers "Other", which opens the "Specify Other Type" field. */
  lemma CompanyTypesOfferOther()
    ensures |CompanyTypes| == 7 && CompanyTypes[6] == "Other"
    ensures "Other" in CompanyTypes
  {
  }

  /** Every fiscal month's value is its caption (the label shown) in lower case. */
  lemma MonthValuesAreLowerLabels()
    ensures |FiscalMonths| == 12
    ensures forall i :: 0 <= i < 12 ==> FiscalMonths[i].value == Lower(FiscalMonths[i].caption)
  {
    forall i | 0 <= i < 12 ensures FiscalMonths[i].value == Lower(FiscalMonths[i].caption) {
      MonthLower(i);
    }
  }

  lemma MonthLower(i: int)
    requires 0 <= i < 12
    ensures FiscalMonths[i].value == Lower(FiscalMonths[i].caption)
  {
    var m := FiscalMonths[i];
    assert |Lower(m.caption)| == |m.value|;
    assert Lower(m.caption)[0] == m.value[0];
  }

  /** The first three letters of each month value, which already tell the months apart. */
  const MonthKeys: seq<string> := ["jan", "feb", "mar", "apr", "may", "jun", "jul", "aug", "sep", "oct", "nov", "dec"]

  /** The twelve month values are all different. */
  lemma MonthValuesDistinct()
    ensures forall i, j :: 0 <= i < j < |FiscalMonths| ==> FiscalMonths[i].value != FiscalMonths[j].value
  {
    forall i | 0 <= i < 12 ensures |FiscalMonths[i].value| >= 3 && FiscalMonths[i].value[..3] == MonthKeys[i] {
    }
    forall i, j | 0 <= i < j < 12 ensures MonthKeys[i] != MonthKeys[j] {
      MonthKeysDiffer(i, j);
    }
  }

  lemma MonthKeysDiffer(i: int, j: int)
    requires 0 <= i < j < 12
    ensures MonthKeys[i] != MonthKeys[j]
  {
    var a, b := MonthKeys[i], MonthKeys[j];
    assert a[0] != b[0] || a[1] != b[1] || a[2] != b[2];
  }

  /** The matrix rating values are exactly S, C, N and NA. */
  lemma MatrixOptionValues()
    ensures |MatrixOptions| == 4
    ensures seq(|MatrixOptions|, i requires 0 <= i < |MatrixOptions| => MatrixOptions[i].value) == ["S", "C", "N", "NA"]
  {
  }

  const MeetingPreferencePath: seq<string> := ["preferences", "meetingPreference"]

  /** Choosing a radio button of mentor step 3 stores its preference, which meets the step's
      "Meeting preference is required" rule, and nothing else. */
  method ChooseMeetingPreference(form: FormStore, i: nat)
    requires i < |MeetingPreferences|
    modifies form
    ensures GetPath(form.values, MeetingPreferencePath) == Str(MeetingPreferences[i])
    ensures Schema.StrAtLeast(GetPath(form.values, MeetingPreferencePath), 1)
    ensures forall q :: Diverge(MeetingPreferencePath, q) ==> GetPath(form.values, q) == GetPath(old(form.values), q)
  {
    form.SetValue(MeetingPreferencePath, Str(MeetingPreferences[i]));
    EveryPreferenceIsNonEmpty();
  }

  /** Whichever of the three preferences is chosen satisfies the step's "required" check. */
  lemma EveryPreferenceIsNonEmpty()
    ensures |MeetingPreferences| == 3
    ensures forall i :: 0 <= i < |MeetingPreferences| ==> Schema.StrAtLeast(Str(MeetingPreferences[i]), 1)
  {
  }
}
