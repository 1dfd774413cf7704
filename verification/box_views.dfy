/** The session-driven redirect decisions of `BoxNewView.post` and
    `BoxScannedView.get`. The session is reduced to its optional `action`
    value and the box table to a map from box number to primary key. */
module BoxViews {
  import opened Wrappers
  import opened Strings
  import opened Routes

  /** The value stored under the session's `action` key, classified against
      `Action.ACTION_BUILD_PALLET` (whose text is defined outside this model).
      A session holding that constant's text is always `BuildPalletAction`:
      `Other` carries the text of any other stored value and never that one,
      so each Python value has exactly one form here. */
  datatype SessionAction = BuildPalletAction | Other(text: string)

  const MissingBoxNumberMessage := "missing box_number"
  const MissingNumberMessage := "missing kwargs['number']"

  function InvalidBoxNumberMessage(boxNumber: string): string {
    "Invalid box_number '" + boxNumber + "'"
  }

  /** `str(action)` for an action that is not the build-pallet one. */
  function ActionText(action: Option<SessionAction>): string
    requires action != Some(BuildPalletAction)
  {
    match action
    case None => "None"
    case Some(Other(t)) => t
  }

  function UnexpectedActionMessage(action: Option<SessionAction>): string
    requires action != Some(BuildPalletAction)
  {
    "What to do when action is " + ActionText(action) + "?"
  }

  /** `BoxNewView.post`. `validate` stands for `BoxNumber.validate`,
      `formValid` for the bound form's `is_valid()`, and `savedPk` for the
      primary key `new_box_form.save()` gives the new box. */
  function BoxNewPost(boxNumber: Option<string>, validate: string -> bool, formValid: bool,
                      savedPk: nat, action: Option<SessionAction>): (r: Outcome)
    ensures !NonEmpty(boxNumber) ==> r == ErrorPage(MissingBoxNumberMessage)
    ensures NonEmpty(boxNumber) && !validate(boxNumber.value) ==>
              r == ErrorPage(InvalidBoxNumberMessage(boxNumber.value))
    ensures r.RenderForm? <==> NonEmpty(boxNumber) && validate(boxNumber.value) && !formValid
    ensures r.Redirect? <==> NonEmpty(boxNumber) && validate(boxNumber.value) && formValid
    ensures r.Redirect? ==> (r.to.BuildPalletAddBox? || r.to.BoxDetails?) && r.to.pk == savedPk
  {
    if !NonEmpty(boxNumber) then ErrorPage(MissingBoxNumberMessage)
    else if !validate(boxNumber.value) then ErrorPage(InvalidBoxNumberMessage(boxNumber.value))
    else if !formValid then RenderForm
    else if action == Some(BuildPalletAction) then Redirect(BuildPalletAddBox(savedPk))
    else Redirect(BoxDetails(savedPk))
  }

  /** After a successful save the flow continues with pallet building exactly
      when the session is building a pallet, and shows the box otherwise. */
  lemma BoxNewPostRedirect(boxNumber: string, validate: string -> bool, savedPk: nat,
                           action: Option<SessionAction>)
    requires boxNumber != "" && validate(boxNumber)
    ensures var r := BoxNewPost(Some(boxNumber), validate, true, savedPk, action);
      && (r == Redirect(BuildPalletAddBox(savedPk)) <==> action == Some(BuildPalletAction))
      && (r == Redirect(BoxDetails(savedPk)) <==> action != Some(BuildPalletAction))
  {
  }

  /** `BoxScannedView.get`. `format` stands for `BoxNumber.format_box_number`
      applied to the URL's number, `boxes` for the box table keyed by box
      number. */
  function BoxScannedGet(number: Option<string>, format: string -> string,
                         action: Option<SessionAction>, boxes: map<string, nat>): (r: Outcome)
    ensures number.None? ==> r == ErrorPage(MissingNumberMessage)
    ensures r.Redirect? <==> number.Some? && action == Some(BuildPalletAction)
    ensures number.Some? && action != Some(BuildPalletAction) ==>
              r == ErrorPage(UnexpectedActionMessage(action))
    ensures r.Redirect? && r.to.BoxNew? ==> r.to.boxNumber !in boxes
    ensures r.Redirect? && r.to.BuildPallet? ==> r.to.pk in boxes.Values
  {
    if number.None? then ErrorPage(MissingNumberMessage)
    else
      var boxNumber := format(number.value);
      if action != Some(BuildPalletAction) then ErrorPage(UnexpectedActionMessage(action))
      else if boxNumber !in boxes then Redirect(BoxNew(boxNumber))
      else Redirect(BuildPallet(boxes[boxNumber]))
  }

  /** While building a pallet, a scanned number is sent to box creation
      exactly when no box has its formatted number, and otherwise to pallet
      building with that box's key. */
  lemma BoxScannedGetLookup(number: string, format: string -> string, boxes: map<string, nat>)
    ensures var r := BoxScannedGet(Some(number), format, Some(BuildPalletAction), boxes);
      && (r == Redirect(BoxNew(format(number))) <==> format(number) !in boxes)
      && (format(number) in boxes ==> r == Redirect(BuildPallet(boxes[format(number)])))
  {
  }

  /** An empty number is not missing: only an absent one gets the "missing"
      page (the test is `is None`). */
  lemma BoxScannedGetEmptyNumber(format: string -> string, boxes: map<string, nat>)
    ensures BoxScannedGet(Some(""), format, Some(BuildPalletAction), boxes).Redirect?
  {
  }
}
