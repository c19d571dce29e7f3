/** The `app`-label selector of `pkg/operator`: an object passes when the
    value of its `app` label is the watched one. */
module Selector {
  import opened Wrappers
  import opened Kube

  /** The label both selectors read. */
  const AppLabelKey := "app"

  /** `ErrNoAppLabelFound`. */
  const NoAppLabelFound := "no app label found "

  /** `getAppLabel(obj)`: the value of the object's `app` label; an error
      when the object has no metadata or no such label. */
  function AppLabel(o: Object): (r: Result<string, string>)
    ensures r.Ok? <==> Accessor(o).Some? && AppLabelKey in Accessor(o).value.labels
    ensures r.Ok? ==> r.value == Accessor(o).value.labels[AppLabelKey]
    ensures Accessor(o).Some? && AppLabelKey !in Accessor(o).value.labels ==> r == Err(NoAppLabelFound)
  {
    match Accessor(o)
    case None => Err("meta accessor error: object does not implement the Object interfaces")
    case Some(m) =>
      if AppLabelKey in m.labels then Ok(m.labels[AppLabelKey]) else Err(NoAppLabelFound)
  }

  /** `hasWatchedLabel(obj)`: whether the `app` label is the watched one;
      an error when there is no `app` label to compare. */
  function HasWatchedLabel(watched: string, o: Object): (r: Result<bool, string>)
    ensures r.Ok? <==> AppLabel(o).Ok?
    ensures r.Ok? ==> (r.value <==> AppLabel(o).value == watched)
  {
    match AppLabel(o)
    case Err(e) => Err("meta app label error: " + e)
    case Ok(l) => Ok(l == watched)
  }

  /** `selector.Validate(obj)`: nil for an object whose `app` label is the
      watched one; otherwise the label error, or an error naming the
      object's own `app` label. */
  function Validate(watched: string, o: Object): (r: Outcome<string>)
  {
    match HasWatchedLabel(watched, o)
    case Err(e) => Fail(e)
    case Ok(v) =>
      if !v then
        (match AppLabel(o)
         case Err(e) => Fail("selector validate error, not watched label, app label not found, skip object, error " + e)
         case Ok(l) => Fail("label " + l + " not queue"))
      else Pass
  }

  /** `Validate` passes exactly the objects whose `app` label is the
      watched one. */
  lemma ValidatePassesWatched(watched: string, o: Object)
    ensures Validate(watched, o).Pass? <==> AppLabel(o) == Ok(watched)
  {
  }

  /** An object without an `app` label is refused with the label error. */
  lemma ValidateRefusesUnlabelled(watched: string, o: Object)
    requires Accessor(o).Some? && AppLabelKey !in Accessor(o).value.labels
    ensures Validate(watched, o) == Fail("meta app label error: " + NoAppLabelFound)
  {
  }

  /** An object with a different `app` label is refused with an error that
      names that label. */
  lemma ValidateNamesOtherLabel(watched: string, o: Object)
    requires AppLabel(o).Ok? && AppLabel(o).value != watched
    ensures Validate(watched, o) == Fail("label " + AppLabel(o).value + " not queue")
  {
  }

  /** `nopValidator.Validate`: every object passes. */
  function NopValidate(o: Object): (r: Outcome<string>)
    ensures r.Pass?
  {
    Pass
  }
}
