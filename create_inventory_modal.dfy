/** `CreateInventoryModal` (the one under `modals/`): it creates an item
    master in a warehouse, with a picture drawn at random from a fixed list
    of 21 placeholder images. A form that does not validate closes nothing
    and shows nothing. */
module CreateInventoryModal {
  import opened Wrappers
  import opened Domain
  import opened Text
  import opened FormRules

  /** The colours of the 21 placeholder images, in list order. */
  const ImageColors: seq<string> := [
    "B0E", "DDC", "EDC", "FFB", "F9C", "FF8", "DDB", "E6E", "EDC", "FF8", "FFD",
    "DDD", "DDC", "9A8", "FFD", "EDC", "F9C", "FF7", "A87", "DDB", "9F8"]

  /** The placeholder service and the image size every picture asks for. */
  const ImageHost := "https://dummyimage.com/600x400/"

  /** A placeholder whose background and text are both `color`: the colour
      can be read back from either end of the URL. */
  function ImageUrl(color: string): (url: string)
    ensures |url| == |ImageHost| + 2 * |color| + 1
    ensures url[..|ImageHost|] == ImageHost
    ensures url[|ImageHost|..|ImageHost| + |color|] == color
    ensures url[|ImageHost| + |color|] == '/'
    ensures url[|url| - |color|..] == color
  {
    var url := ImageHost + color + "/" + color;
    assert url == ImageHost + (color + "/") + color;
    url
  }

  /** Different colours give different pictures. */
  lemma ImageUrlInjective(c1: string, c2: string)
    requires ImageUrl(c1) == ImageUrl(c2)
    ensures c1 == c2
  {
    var u := ImageUrl(c1);
    assert |c1| == |c2|;
    assert c1 == u[|u| - |c1|..] == c2;
  }

  function Images(): (images: seq<string>)
    ensures |images| == 21
    ensures forall i :: 0 <= i < 21 ==> images[i] == ImageUrl(ImageColors[i])
  {
    seq(|ImageColors|, i requires 0 <= i < |ImageColors| => ImageUrl(ImageColors[i]))
  }

  /** `Math.floor(Math.random() * images.length)` for a draw `r` in [0, 1). */
  function ImageIndex(r: real): (i: nat)
    requires 0.0 <= r < 1.0
    ensures i < |Images()|
    ensures i as real <= r * 21.0 < i as real + 1.0
  {
    (r * 21.0).Floor
  }

  /** Every image can be drawn: the draw `i / 21` picks image `i`. */
  lemma EveryImageReachable(i: nat)
    requires i < 21
    ensures ImageIndex(i as real / 21.0) == i
  {
    assert (i as real / 21.0) * 21.0 == i as real;
  }

  /** The body of `POST /items`. */
  datatype CreateRequest = CreateRequest(name: string, image: string, warehouseId: int)

  /** The item-master field is required and not blank; a warehouse is required. */
  predicate FormValid(itemMaster: Option<string>, warehouse: Option<int>) {
    NonBlank(itemMaster) && warehouse.Some?
  }

  const CreatedText := "Inventory item created successfully"

  /** `errorData || fallback` with `errorData = data.message`: an object
      message is truthy and shows as "[object Object]". */
  function MessageOr(m: ResponseMessage, fallback: string): (text: string)
    ensures m.NoMessage? ==> text == fallback
    ensures m.TextMessage? ==> text == OrDefault(Some(m.text), fallback)
    ensures m.NestedMessage? ==> text == MessageText(m)
  {
    match m
    case NoMessage => fallback
    case TextMessage(t) => OrDefault(Some(t), fallback)
    case NestedMessage(_) => MessageText(m)
  }

  /** What `handleSubmit` shows and calls. */
  function SubmitResult(formValid: bool, o: PostOutcome, hasOnSuccess: bool): (e: SubmitEffects)
    ensures !formValid ==> e == SubmitEffects(None, false, [])
    ensures e.formReset <==> formValid && o.PostResponse? && o.status == 201
    ensures e.formReset ==>
      (e.callbacks == SuccessCallbacks(hasOnSuccess) && e.alert == Some(SuccessAlert(CreatedText)))
    ensures !e.formReset ==> e.callbacks == []
    ensures formValid && !e.formReset ==> e.alert.Some? && e.alert.value.ErrorAlert?
  {
    if !formValid then SubmitEffects(None, false, [])
    else match o
      case PostResponse(status, message) =>
        if status == 201 then
          SubmitEffects(Some(SuccessAlert(CreatedText)), true, SuccessCallbacks(hasOnSuccess))
        else
          SubmitEffects(Some(ErrorAlert("Error!", MessageOr(message, "Failed to create inventory item"))), false, [])
      case PostClientError(serverMessage) =>
        SubmitEffects(Some(ErrorAlert("Create Inventory Failed!", serverMessage.GetOr(""))), false, [])
      case PostOtherError => SubmitEffects(Some(GenericFailureAlert), false, [])
  }

  /** A refusal shows the server's own string message when it sent one. */
  lemma RefusalShowsServerText(status: int, text: string, hasOnSuccess: bool)
    requires status != 201 && text != ""
    ensures SubmitResult(true, PostResponse(status, TextMessage(text)), hasOnSuccess).alert
      == Some(ErrorAlert("Error!", text))
  {
  }

  class CreateInventoryForm {
    var itemMaster: Option<string>
    var warehouse: Option<int>
    var submitting: bool

    constructor ()
      ensures itemMaster == None && warehouse == None && !submitting
    {
      itemMaster := None;
      warehouse := None;
      submitting := false;
    }

    method SetItemMaster(value: string)
      modifies this`itemMaster
      ensures itemMaster == Some(value)
    {
      itemMaster := Some(value);
    }

    method SetWarehouse(id: int)
      modifies this`warehouse
      ensures warehouse == Some(id)
    {
      warehouse := Some(id);
    }

    /** `handleCancel`: reset the form, then `onCancel`. */
    method HandleCancel() returns (callbacks: seq<ModalCallback>)
      modifies this`itemMaster, this`warehouse
      ensures itemMaster == None && warehouse == None
      ensures callbacks == [CallOnCancel]
    {
      itemMaster, warehouse := None, None;
      callbacks := [CallOnCancel];
    }

    /** `handleSubmit`, with `r` the value `Math.random()` returned. */
    method HandleSubmit(r: real, hasOnSuccess: bool, o: PostOutcome)
      returns (request: Option<CreateRequest>, effects: SubmitEffects)
      requires 0.0 <= r < 1.0
      modifies this`itemMaster, this`warehouse, this`submitting
      ensures request.Some? <==> FormValid(old(itemMaster), old(warehouse))
      ensures request.Some? ==>
        request.value == CreateRequest(old(itemMaster).value, Images()[ImageIndex(r)], old(warehouse).value)
      ensures effects == SubmitResult(request.Some?, o, hasOnSuccess)
      ensures effects.formReset ==> itemMaster == None && warehouse == None
      ensures !effects.formReset ==> itemMaster == old(itemMaster) && warehouse == old(warehouse)
      ensures !submitting
    {
      if !FormValid(itemMaster, warehouse) {
        request := None;
        effects := SubmitResult(false, o, hasOnSuccess);
        submitting := false;
        return;
      }
      submitting := true;
      var image := Images()[ImageIndex(r)];
      request := Some(CreateRequest(itemMaster.value, image, warehouse.value));
      effects := SubmitResult(true, o, hasOnSuccess);
      if effects.formReset {
        itemMaster, warehouse := None, None;
      }
      submitting := false;
    }
  }
}
