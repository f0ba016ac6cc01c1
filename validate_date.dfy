/**
 * Validation of a single date value against the date-picker props: the first
 * failing rule, in a fixed order, names the error; a null value, or a value
 * that passes every rule, has none.
 *
 * Dates are day numbers, so "before the day" and "after the day" are `<` and
 * `>`.  The adapter's validity test is an arbitrary predicate, and the current
 * day, read from the clock in the source, is a field of the adapter.
 */
module DateValidation {
  import opened Wrappers

  /** A calendar day, counted from an arbitrary origin. */
  type Day = int

  /** The error tags; `None` in the result stands for `null`, "no error". */
  datatype DateValidationError =
    | InvalidDate
    | ShouldDisableDate
    | ShouldDisableMonth
    | ShouldDisableYear
    | DisableFuture
    | DisablePast
    | MinDate
    | MaxDate

  /** The validation props; each `shouldDisable...` callback may be absent. */
  datatype DateProps = DateProps(
    shouldDisableDate: Option<Day -> bool>,
    shouldDisableMonth: Option<Day -> bool>,
    shouldDisableYear: Option<Day -> bool>,
    disableFuture: bool,
    disablePast: bool)

  /** The date adapter: its validity test and the day it reports as today. */
  datatype Adapter = Adapter(isValid: Day -> bool, now: Day)

  /** The min and max dates after the adapter's defaults have been applied. */
  datatype Bounds = Bounds(minDate: Option<Day>, maxDate: Option<Day>)

  /** An optional callback fires: it is present and returns true (`Boolean(cb && cb(value))`). */
  predicate Fires(callback: Option<Day -> bool>, value: Day)
  {
    callback.Some? && callback.value(value)
  }

  /** The position of each rule in the order it is tried. */
  function Rank(e: DateValidationError): nat
  {
    match e
    case InvalidDate => 0
    case ShouldDisableDate => 1
    case ShouldDisableMonth => 2
    case ShouldDisableYear => 3
    case DisableFuture => 4
    case DisablePast => 5
    case MinDate => 6
    case MaxDate => 7
  }

  /** The condition under which each rule, taken on its own, rejects `value`. */
  predicate Fails(e: DateValidationError, props: DateProps, value: Day, adapter: Adapter, bounds: Bounds)
  {
    match e
    case InvalidDate => !adapter.isValid(value)
    case ShouldDisableDate => Fires(props.shouldDisableDate, value)
    case ShouldDisableMonth => Fires(props.shouldDisableMonth, value)
    case ShouldDisableYear => Fires(props.shouldDisableYear, value)
    case DisableFuture => props.disableFuture && value > adapter.now
    case DisablePast => props.disablePast && value < adapter.now
    case MinDate => bounds.minDate.Some? && value < bounds.minDate.value
    case MaxDate => bounds.maxDate.Some? && value > bounds.maxDate.value
  }

  /** The validator: `value == None` is the null value. */
  function ValidateDate(props: DateProps, value: Option<Day>, adapter: Adapter, bounds: Bounds)
    : (r: Option<DateValidationError>)
    ensures value.None? ==> r.None?
    // a reported error is a failing rule, and every earlier rule passes
    ensures r.Some? ==> value.Some? && Fails(r.value, props, value.value, adapter, bounds)
    ensures r.Some? ==> forall e :: Rank(e) < Rank(r.value) ==> !Fails(e, props, value.value, adapter, bounds)
    // no error for a non-null value means every rule passes
    ensures r.None? && value.Some? ==> forall e :: !Fails(e, props, value.value, adapter, bounds)
  {
    if value.None? then None
    else
      var v := value.value;
      if !adapter.isValid(v) then Some(InvalidDate)
      else if Fires(props.shouldDisableDate, v) then Some(ShouldDisableDate)
      else if Fires(props.shouldDisableMonth, v) then Some(ShouldDisableMonth)
      else if Fires(props.shouldDisableYear, v) then Some(ShouldDisableYear)
      else if props.disableFuture && v > adapter.now then Some(DisableFuture)
      else if props.disablePast && v < adapter.now then Some(DisablePast)
      else if bounds.minDate.Some? && v < bounds.minDate.value then Some(MinDate)
      else if bounds.maxDate.Some? && v > bounds.maxDate.value then Some(MaxDate)
      else None
  }

  /** The rules in the order they are tried. */
  const RuleOrder: seq<DateValidationError> :=
    [InvalidDate, ShouldDisableDate, ShouldDisableMonth, ShouldDisableYear,
     DisableFuture, DisablePast, MinDate, MaxDate]

  /** Reference definition: the first rule of `rules` that fails, if any. */
  function FirstFailing(rules: seq<DateValidationError>, props: DateProps, value: Day,
                        adapter: Adapter, bounds: Bounds): (r: Option<DateValidationError>)
    ensures r.Some? ==> r.value in rules && Fails(r.value, props, value, adapter, bounds)
    ensures r.None? ==> forall e :: e in rules ==> !Fails(e, props, value, adapter, bounds)
    // the first failing position wins
    ensures forall j :: 0 <= j < |rules| && Fails(rules[j], props, value, adapter, bounds) &&
                        (forall i :: 0 <= i < j ==> !Fails(rules[i], props, value, adapter, bounds))
                        ==> r == Some(rules[j])
    decreases |rules|
  {
    if rules == [] then None
    else if Fails(rules[0], props, value, adapter, bounds) then Some(rules[0])
    else FirstFailing(rules[1..], props, value, adapter, bounds)
  }

  /** The rule order lists every rule once, by rank. */
  lemma RuleOrderRanks(e: DateValidationError)
    ensures Rank(e) < |RuleOrder| && RuleOrder[Rank(e)] == e
  {
  }

  /** The validator is the first failing rule of the fixed order. */
  lemma {:induction false} ValidateIsFirstFailing(props: DateProps, value: Day, adapter: Adapter, bounds: Bounds)
    ensures ValidateDate(props, Some(value), adapter, bounds) == FirstFailing(RuleOrder, props, value, adapter, bounds)
  {
    var r := ValidateDate(props, Some(value), adapter, bounds);
    if r.Some? {
      var e := r.value;
      RuleOrderRanks(e);
      forall i | 0 <= i < Rank(e)
        ensures !Fails(RuleOrder[i], props, value, adapter, bounds)
      {
        RuleOrderRanks(RuleOrder[i]);
      }
    } else {
      forall e | e in RuleOrder ensures !Fails(e, props, value, adapter, bounds) { }
    }
  }

  /** A null value is never an error, whatever the props and adapter. */
  lemma NullIsValid(props: DateProps, adapter: Adapter, bounds: Bounds)
    ensures ValidateDate(props, None, adapter, bounds) == None
  {
  }

  /** An invalid non-null value is reported as `invalidDate`, before any other rule. */
  lemma InvalidDateFirst(props: DateProps, value: Day, adapter: Adapter, bounds: Bounds)
    requires !adapter.isValid(value)
    ensures ValidateDate(props, Some(value), adapter, bounds) == Some(InvalidDate)
  {
  }

  /**
   * First match, seen from the other side: when a rule fails and no earlier
   * rule fails, that rule is the result.
   */
  lemma FirstMatchWins(e: DateValidationError, props: DateProps, value: Day, adapter: Adapter, bounds: Bounds)
    requires Fails(e, props, value, adapter, bounds)
    requires forall e' :: Rank(e') < Rank(e) ==> !Fails(e', props, value, adapter, bounds)
    ensures ValidateDate(props, Some(value), adapter, bounds) == Some(e)
  {
    var r := ValidateDate(props, Some(value), adapter, bounds);
    assert r.Some?;
    RuleOrderRanks(e);
    RuleOrderRanks(r.value);
  }

  /** An absent `shouldDisable...` callback can never produce its error. */
  lemma AbsentCallbacksNeverFire(props: DateProps, value: Option<Day>, adapter: Adapter, bounds: Bounds)
    ensures var r := ValidateDate(props, value, adapter, bounds);
      && (props.shouldDisableDate.None? ==> r != Some(ShouldDisableDate))
      && (props.shouldDisableMonth.None? ==> r != Some(ShouldDisableMonth))
      && (props.shouldDisableYear.None? ==> r != Some(ShouldDisableYear))
  {
  }

  /** The future and past rules are switched off by their flags. */
  lemma FlagsSwitchOffRules(props: DateProps, value: Option<Day>, adapter: Adapter, bounds: Bounds)
    ensures var r := ValidateDate(props, value, adapter, bounds);
      && (!props.disableFuture ==> r != Some(DisableFuture))
      && (!props.disablePast ==> r != Some(DisablePast))
  {
  }

  /** `minDate` only for a day before the resolved minimum, `maxDate` only for a day after the maximum. */
  lemma BoundsErrorsNeedBounds(props: DateProps, value: Option<Day>, adapter: Adapter, bounds: Bounds)
    ensures var r := ValidateDate(props, value, adapter, bounds);
      && (r == Some(MinDate) ==> value.Some? && bounds.minDate.Some? && value.value < bounds.minDate.value)
      && (r == Some(MaxDate) ==> value.Some? && bounds.maxDate.Some? && value.value > bounds.maxDate.value)
  {
  }
}
