/** The older `CreateInventoryModal` (directly under `components/`): the same
    form, but its picture is a placeholder in a random three-digit colour
    labelled with the first character of the name, and every failure other
    than a refusal with a nested message shows one fixed dialog. */
module CreateInventoryLegacy {
  import opened Wrappers
  import opened Domain
  import opened Text
  import opened FormRules
  import CreateInventoryModal

  /** `Math.floor(n).toString().padStart(3, "0")`. */
  function ColorCode(n: nat): (c: string)
    requires n < 1000
  {
    PadStart(ToDecimal(n), 3, '0')
  }

  lemma {:induction false} DecimalBelowThousand(n: nat)
    requires n < 1000
    ensures |ToDecimal(n)| <= 3
  {
    if n >= 10 {
      assert n / 10 < 100;
      if n / 10 >= 10 {
        assert |ToDecimal(n / 100)| == 1;
        assert |ToDecimal(n / 10)| == 2;
      }
    }
  }

  /** The colour is always three decimal digits and reads back as the drawn
      number. */
  lemma ColorCodeShape(n: nat)
    requires n < 1000
    ensures |ColorCode(n)| == 3 && AllDigits(ColorCode(n))
    ensures DigitsValue(ColorCode(n)) == n
  {
    DecimalBelowThousand(n);
    var d := ToDecimal(n);
    LeadingZerosValue(3 - |d|, d);
    assert ColorCode(n) == Repeat('0', 3 - |d|) + d;
  }

  /** `Math.floor(r * 1000)` for a draw `r` in [0, 1). */
  function DrawnNumber(r: real): (n: nat)
    requires 0.0 <= r < 1.0
    ensures n < 1000
  {
    (r * 1000.0).Floor
  }

  /** The image URL; the name is not empty once the form validated. */
  function ImageUrl(color: string, itemMaster: string): (url: string)
    requires itemMaster != ""
    ensures |url| == |CreateInventoryModal.ImageHost| + |color| + |TextSuffix| + 1
    ensures url[..|CreateInventoryModal.ImageHost|] == CreateInventoryModal.ImageHost
    ensures url[|CreateInventoryModal.ImageHost|..|CreateInventoryModal.ImageHost| + |color|] == color
    ensures url[|CreateInventoryModal.ImageHost| + |color|..|url| - 1] == TextSuffix
    ensures url[|url| - 1] == itemMaster[0]
  {
    var url := CreateInventoryModal.ImageHost + color + TextSuffix + [itemMaster[0]];
    assert url == CreateInventoryModal.ImageHost + (color + (TextSuffix + [itemMaster[0]]));
    url
  }

  /** White text, set by the `text` parameter that follows. */
  const TextSuffix := "/fff&text="

  /** The picture of a new item: the drawn colour, labelled with the name. */
  function Picture(r: real, itemMaster: string): string
    requires 0.0 <= r < 1.0 && itemMaster != ""
  {
    ImageUrl(ColorCode(DrawnNumber(r)), itemMaster)
  }

  /** The picture carries the drawn number as three digits right after the
      host, and ends with the name's first character. */
  lemma PictureReadsBack(r: real, itemMaster: string)
    requires 0.0 <= r < 1.0 && itemMaster != ""
    ensures var p := Picture(r, itemMaster); var h := |CreateInventoryModal.ImageHost|;
      |p| == h + 14 && AllDigits(p[h..h + 3]) && DigitsValue(p[h..h + 3]) == DrawnNumber(r)
      && p[|p| - 1] == itemMaster[0]
  {
    ColorCodeShape(DrawnNumber(r));
  }

  const UnexpectedAlert := ErrorAlert("Error!", "An unexpected error occurred")

  /** What `handleSubmit` shows and calls. A refusal reads
      `data.message.message || "Failed to create inventory item"`; that throws
      for a missing message, and whatever is thrown ends in the fixed dialog. */
  function SubmitResult(formValid: bool, o: PostOutcome, hasOnSuccess: bool): (e: SubmitEffects)
    ensures !formValid ==> e == SubmitEffects(None, false, [])
    ensures e.formReset <==> formValid && o.PostResponse? && o.status == 201
    ensures e.formReset ==>
      (e.callbacks == SuccessCallbacks(hasOnSuccess)
       && e.alert == Some(SuccessAlert(CreateInventoryModal.CreatedText)))
    ensures !e.formReset ==> e.callbacks == []
    ensures formValid && !e.formReset ==>
      (e.alert.Some? && e.alert.value.ErrorAlert? && e.alert.value.title == "Error!")
  {
    if !formValid then SubmitEffects(None, false, [])
    else match o
      case PostResponse(status, message) =>
        if status == 201 then
          SubmitEffects(Some(SuccessAlert(CreateInventoryModal.CreatedText)), true, SuccessCallbacks(hasOnSuccess))
        else
          (match NestedMessageOr(message, "Failed to create inventory item")
           case Failure(_) => SubmitEffects(Some(UnexpectedAlert), false, [])
           case Success(text) => SubmitEffects(Some(ErrorAlert("Error!", text)), false, []))
      case PostClientError(_) => SubmitEffects(Some(UnexpectedAlert), false, [])
      case PostOtherError => SubmitEffects(Some(UnexpectedAlert), false, [])
  }

  /** Unlike the newer modal, a client error never shows the server's text. */
  lemma ClientErrorTextHidden(serverMessage: Option<string>, hasOnSuccess: bool)
    ensures SubmitResult(true, PostClientError(serverMessage), hasOnSuccess).alert == Some(UnexpectedAlert)
    ensures serverMessage.Some? && serverMessage.value != "" ==>
      CreateInventoryModal.SubmitResult(true, PostClientError(serverMessage), hasOnSuccess).alert
        == Some(ErrorAlert("Create Inventory Failed!", serverMessage.value))
  {
  }

  /** The two modals agree on everything but the text of failure dialogs. */
  lemma AgreesWithNewerModal(formValid: bool, o: PostOutcome, hasOnSuccess: bool)
    ensures SubmitResult(formValid, o, hasOnSuccess).formReset
      == CreateInventoryModal.SubmitResult(formValid, o, hasOnSuccess).formReset
    ensures SubmitResult(formValid, o, hasOnSuccess).callbacks
      == CreateInventoryModal.SubmitResult(formValid, o, hasOnSuccess).callbacks
    ensures SubmitResult(formValid, o, hasOnSuccess).alert.None?
      == CreateInventoryModal.SubmitResult(formValid, o, hasOnSuccess).alert.None?
  {
  }

  class LegacyCreateInventoryForm {
    var itemMaster: Option<string>
    var warehouse: Option<int>
    var submitting: bool

    constructor ()
      ensures itemMaster == None && warehouse == None && !submitting
    {
      itemMaster := None;
      warehouse := None;
      submitting := false;
    }

    method HandleCancel() returns (callbacks: seq<ModalCallback>)
      modifies this`itemMaster, this`warehouse
      ensures itemMaster == None && warehouse == None
      ensures callbacks == [CallOnCancel]
    {
      itemMaster, warehouse := None, None;
      callbacks := [CallOnCancel];
    }

    /** `handleSubmit`, with `r` the value `Math.random()` returned. */
    method HandleSubmit(r: real, hasOnSuccess: bool, o: PostOutcome)
      returns (request: Option<CreateInventoryModal.CreateRequest>, effects: SubmitEffects)
      requires 0.0 <= r < 1.0
      modifies this`itemMaster, this`warehouse, this`submitting
      ensures request.Some? <==> CreateInventoryModal.FormValid(old(itemMaster), old(warehouse))
      ensures request.Some? ==>
        request.value == CreateInventoryModal.CreateRequest(
          old(itemMaster).value, Picture(r, old(itemMaster).value), old(warehouse).value)
      ensures effects == SubmitResult(request.Some?, o, hasOnSuccess)
      ensures effects.formReset ==> itemMaster == None && warehouse == None
      ensures !effects.formReset ==> itemMaster == old(itemMaster) && warehouse == old(warehouse)
      ensures !submitting
    {
      var valid := CreateInventoryModal.FormValid(itemMaster, warehouse);
      request := None;
      if valid {
        submitting := true;
        var name := itemMaster.value;
        request := Some(CreateInventoryModal.CreateRequest(name, Picture(r, name), warehouse.value));
      }
      effects := SubmitResult(valid, o, hasOnSuccess);
      if effects.formReset {
        itemMaster, warehouse := None, None;
      }
      submitting := false;
    }
  }
}
