/** The date text of a journal: the server keeps `"YYYY-MM-DD 00:00:00"`,
    the date input of the form holds the part before the first space. */
module Dates {
  import opened Text

  /** Appended to the form's date before it is sent to the server */
  const MidnightSuffix := " 00:00:00"

  /** `formatDateForInput`: the text before the first space, and `""` for
      an empty date.  The result is the longest space-free prefix of the
      input. */
  function FormatDateForInput(dateString: string): (r: string)
    ensures dateString == "" ==> r == ""
    ensures r <= dateString
    ensures ' ' !in r
    ensures |r| < |dateString| ==> dateString[|r|] == ' '
    ensures ' ' !in dateString ==> r == dateString
  {
    if dateString == "" then "" else SplitOnSpace(dateString)[0]
  }

  /** The date the server stores for the date `date` of a submitted form */
  function StampMidnight(date: string): string {
    date + MidnightSuffix
  }

  /** The three properties of `FormatDateForInput` pin its result down: any
      space-free prefix that ends at a space or at the end of the input is
      that result. */
  lemma PrefixBeforeSpaceIsFormatted(dateString: string, d: string)
    requires d <= dateString
    requires ' ' !in d
    requires |d| == |dateString| || dateString[|d|] == ' '
    ensures FormatDateForInput(dateString) == d
  {
  }

  /** Formatting is idempotent. */
  lemma FormatIdempotent(dateString: string)
    ensures FormatDateForInput(FormatDateForInput(dateString)) == FormatDateForInput(dateString)
  {
  }

  /** The date put in the form is recovered from the stamped server value
      exactly when it holds no space. */
  lemma FormatRecoversStampedDate(date: string)
    ensures FormatDateForInput(StampMidnight(date)) == date <==> ' ' !in date
  {
  }
}
