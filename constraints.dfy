/**
 * src/modules/portfolio-creator/constraints.ts: the year and month choices
 * the editor offers and the field limits it advertises. The current year is
 * a parameter.
 */
module Constraints {
  import opened Wrappers
  import opened Helpers

  /** `PORTFOLIO_YEAR_MIN`. */
  const PORTFOLIO_YEAR_MIN: int := 1950

  /**
   * `getPortfolioYearOptions` for the current year `max`: `Array.from` with
   * length `max - 1950 + 1` (no entries when that is not positive), entry `i`
   * being `max - i`.
   */
  function YearOptions(max: int): (r: seq<int>)
    ensures |r| == if max >= PORTFOLIO_YEAR_MIN then max - PORTFOLIO_YEAR_MIN + 1 else 0
  {
    var n := if max >= PORTFOLIO_YEAR_MIN then max - PORTFOLIO_YEAR_MIN + 1 else 0;
    seq(n, i requires 0 <= i < n => max - i)
  }

  /** The options run from `max` down to 1950, one year at a time. */
  lemma YearOptionsDescend(max: int)
    ensures var r := YearOptions(max);
      && (|r| > 0 ==> r[0] == max && r[|r| - 1] == PORTFOLIO_YEAR_MIN)
      && (forall i :: 0 <= i < |r| - 1 ==> r[i + 1] == r[i] - 1)
      && (forall i :: 0 <= i < |r| ==> PORTFOLIO_YEAR_MIN <= r[i] <= max)
  {
  }

  /** A year is offered exactly when it lies between 1950 and the current year. */
  lemma YearOptionsExactly(max: int, year: int)
    ensures year in YearOptions(max) <==> PORTFOLIO_YEAR_MIN <= year <= max
  {
    var r := YearOptions(max);
    if PORTFOLIO_YEAR_MIN <= year <= max {
      assert r[max - year] == year;
    }
  }

  datatype MonthOption = MonthOption(value: int, labelText: string)

  /** `PORTFOLIO_MONTH_OPTIONS`. */
  const MONTH_OPTIONS: seq<MonthOption> := [
    MonthOption(1, "Jan"), MonthOption(2, "Feb"), MonthOption(3, "Mar"), MonthOption(4, "Apr"),
    MonthOption(5, "May"), MonthOption(6, "Jun"), MonthOption(7, "Jul"), MonthOption(8, "Aug"),
    MonthOption(9, "Sep"), MonthOption(10, "Oct"), MonthOption(11, "Nov"), MonthOption(12, "Dec")]

  /**
   * The month options are the values 1..12 in order, and each label is the
   * one `monthLabel` in helpers.ts prints for that value.
   */
  lemma MonthOptionsAgreeWithMonthLabel()
    ensures |MONTH_OPTIONS| == 12
    ensures forall i :: 0 <= i < 12 ==> MONTH_OPTIONS[i].value == i + 1
    ensures forall i :: 0 <= i < 12 ==> MonthLabel(Some(MONTH_OPTIONS[i].value)) == MONTH_OPTIONS[i].labelText
  {
    forall i | 0 <= i < 12 ensures MonthLabel(Some(MONTH_OPTIONS[i].value)) == MONTH_OPTIONS[i].labelText {
      assert MONTH_OPTIONS[i].labelText == MONTH_NAMES[i];
    }
  }

  /** `PORTFOLIO_MAX`: the advertised maximum length of each text field. */
  const MAX_PROJECT_TITLE: nat := 60
  const MAX_SLUG: nat := 80
  const MAX_PROFILE_FULL_NAME: nat := 60
  const MAX_PROFILE_HEADLINE: nat := 80
  const MAX_PROFILE_LOCATION: nat := 60
  const MAX_PROFILE_EMAIL: nat := 120
  const MAX_PROFILE_PHONE: nat := 30
  const MAX_PROFILE_WEBSITE: nat := 160
  const MAX_PROFILE_GITHUB: nat := 160
  const MAX_PROFILE_LINKEDIN: nat := 160
  const MAX_ABOUT_TEXT: nat := 500
  const MAX_PROJECT_NAME: nat := 80
  const MAX_PROJECT_DESCRIPTION: nat := 240
  const MAX_PROJECT_LINK: nat := 160
  const MAX_BULLET_LINE: nat := 120
  const MAX_TAG: nat := 24
  const MAX_EXPERIENCE_ROLE: nat := 80
  const MAX_EXPERIENCE_COMPANY: nat := 80
  const MAX_EXPERIENCE_LOCATION: nat := 60
  const MAX_EDUCATION_DEGREE: nat := 80
  const MAX_EDUCATION_FIELD: nat := 80
  const MAX_EDUCATION_INSTITUTION: nat := 100
  const MAX_EDUCATION_GRADE: nat := 20
  const MAX_CERTIFICATION_TITLE: nat := 80
  const MAX_CERTIFICATION_ISSUER: nat := 80
  const MAX_NOTE: nat := 120
  const MAX_CTA_TITLE: nat := 60
  const MAX_CTA_TEXT: nat := 180
  const MAX_LINK_LABEL: nat := 30
  const MAX_LINK_URL: nat := 160
  const MAX_SKILLS_GROUP_NAME: nat := 40
  const MAX_SKILL_ITEM: nat := 40

  /** `PORTFOLIO_LIMITS`: the advertised maximum number of list entries. */
  const PROJECT_BULLETS_MAX: nat := 6
  const PROJECT_TAGS_MAX: nat := 8
  const EXPERIENCE_BULLETS_MAX: nat := 8
}
