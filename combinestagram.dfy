/**
 * The collage screen (Combinestagram's `MainViewController`): a list of
 * picked images, and the controls whose state is recomputed from the list's
 * length on every change. Images are a type parameter: only their number and
 * order matter here.
 */
module Combinestagram {
  import opened Text

  /** The length at which the add button is disabled. */
  const MaxImages: nat := 6

  /** Clear is off only for the empty list. */
  predicate ClearEnabled(count: nat)
    ensures !ClearEnabled(count) <==> count == 0
  {
    count > 0
  }

  /** Save needs a non-empty, even number of images, so it is never on without clear. */
  predicate SaveEnabled(count: nat)
    ensures SaveEnabled(count) ==> count >= 2 && ClearEnabled(count)
    ensures SaveEnabled(count) ==> count % 2 == 0
  {
    count > 0 && count % 2 == 0
  }

  /** Add is on while one more image still keeps the list within the cap. */
  predicate AddEnabled(count: nat)
    ensures AddEnabled(count) <==> count + 1 <= MaxImages
  {
    count < MaxImages
  }

  /** The count label: the count, two spaces, and "photo", plural from two on. */
  function PhotoLabel(count: nat): (caption: string)
    ensures |caption| == |DecimalString(count)| + (if count >= 2 then 8 else 7)
    ensures caption[..|DecimalString(count)|] == DecimalString(count)
    ensures caption[|DecimalString(count)|] == ' '
    ensures caption[|caption| - 1] == 's' <==> count >= 2
  {
    var digits := DecimalString(count);
    var text := digits + "  photo" + (if count < 2 then "" else "s");
    assert text[..|digits|] == digits;
    text
  }

  /** Everything `updateUI` sets. */
  datatype Controls = Controls(saveEnabled: bool, clearEnabled: bool, addEnabled: bool, countLabel: string)

  /** `updateUI(photos:)`: the controls depend on nothing but the number of photos. */
  function UpdateUI<Image>(photos: seq<Image>): (c: Controls)
    ensures c.saveEnabled == SaveEnabled(|photos|)
    ensures c.clearEnabled == ClearEnabled(|photos|)
    ensures c.addEnabled == AddEnabled(|photos|)
    ensures c.countLabel == PhotoLabel(|photos|)
  {
    var count := |photos|;
    Controls(SaveEnabled(count), ClearEnabled(count), AddEnabled(count), PhotoLabel(count))
  }

  /** Lists of the same length show the same controls. */
  lemma UpdateUIDependsOnCountOnly<Image>(a: seq<Image>, b: seq<Image>)
    requires |a| == |b|
    ensures UpdateUI(a) == UpdateUI(b)
  {
  }

  /** Over the counts the add button allows, save is on exactly at 2, 4 and 6. */
  lemma SaveEnabledCounts(count: nat)
    requires count <= MaxImages
    ensures SaveEnabled(count) <==> count == 2 || count == 4 || count == 6
  {
  }

  /** Whenever save is on, clear is on too. */
  lemma SaveImpliesClear(count: nat)
    ensures SaveEnabled(count) ==> ClearEnabled(count)
  {
  }

  /** With nothing picked only add is on, and the label reads "0  photo". */
  lemma ControlsWhenEmpty<Image>()
    ensures UpdateUI<Image>([]) == Controls(false, false, true, "0  photo")
  {
  }

  /**
   * The label reads back: its leading digits parse to the count, and what
   * follows is "  photo", with an "s" exactly when the count is at least two.
   */
  lemma {:induction false} PhotoLabelReadsBack(count: nat)
    ensures var digits := DecimalString(count);
            var text := PhotoLabel(count);
            |digits| < |text| &&
            text[..|digits|] == digits &&
            ParseDecimal(text[..|digits|]) == count &&
            text[|digits|..] == (if count >= 2 then "  photos" else "  photo")
  {
    var digits := DecimalString(count);
    var text := PhotoLabel(count);
    var suffix := "  photo" + (if count < 2 then "" else "s");
    assert text == digits + suffix;
    assert text[..|digits|] == digits;
    assert text[|digits|..] == suffix;
    DecimalRoundTrip(count);
  }

  /** The label ends in "s" exactly when the count is at least two. */
  lemma PhotoLabelPlural(count: nat)
    ensures PhotoLabel(count)[|PhotoLabel(count)| - 1] == 's' <==> count >= 2
  {
  }

  /** The labels for no, one and two photos. */
  lemma PhotoLabelExamples()
    ensures PhotoLabel(0) == "0  photo"
    ensures PhotoLabel(1) == "1  photo"
    ensures PhotoLabel(2) == "2  photos"
  {
  }

  /** How a save ends: the photo writer completes or fails with a description. */
  datatype SaveOutcome = Completed | Failed(description: string)

  /** The message a save shows. */
  datatype Message = Message(title: string, description: string)

  class MainViewController<Image> {
    var images: seq<Image>

    constructor ()
      ensures images == []
    {
      images := [];
    }

    /** The controls for the current list. */
    function CurrentControls(): Controls
      reads this
    {
      UpdateUI(images)
    }

    /** `actionClear`: the list is emptied, which leaves only add enabled. */
    method ActionClear()
      modifies this
      ensures images == []
      ensures CurrentControls() == Controls(false, false, true, "0  photo")
    {
      images := [];
      ControlsWhenEmpty<Image>();
    }

    /**
     * A picked image is appended at the end; earlier images stay where they
     * were. Nothing caps the list: six images only disable the add button.
     */
    method AddPickedImage(newImage: Image)
      modifies this
      ensures images == old(images) + [newImage]
      ensures images[..|old(images)|] == old(images)
    {
      images := images + [newImage];
    }

    /**
     * The tap on save: a save starts only when there is a preview image to
     * write. The list is not touched here; it changes only when the save
     * finishes, and nothing stops a second tap from starting a second save.
     */
    method ActionSave(hasPreview: bool) returns (started: bool)
      ensures started <==> hasPreview
    {
      if !hasPreview {
        return false;
      }
      started := true;
    }

    /**
     * The completion of a save started by `ActionSave`, which arrives later,
     * after any number of other steps. Success shows "Save" and clears the
     * list as it is at that moment, images picked while the save ran
     * included; failure shows "Error" with the failure's description and
     * keeps the list.
     */
    method SaveFinished(outcome: SaveOutcome) returns (shown: Message)
      modifies this
      ensures outcome.Completed? ==> shown == Message("Save", "") && images == []
      ensures outcome.Failed? ==> shown == Message("Error", outcome.description) && images == old(images)
    {
      match outcome
      case Failed(description) =>
        shown := Message("Error", description);
      case Completed =>
        shown := Message("Save", "");
        ActionClear();
    }
  }

  /** An image picked while a save is running is cleared when that save completes. */
  method SaveClearsLatePick<Image>(screen: MainViewController<Image>, picked: Image)
    modifies screen
  {
    var started := screen.ActionSave(true);
    screen.AddPickedImage(picked);
    assert picked in screen.images;
    var shown := screen.SaveFinished(Completed);
    assert screen.images == [] && shown.title == "Save";
  }
}
