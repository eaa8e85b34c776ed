/** `EditInventoryModal`: renames an item master. When it opens on an item
    it fills the name field with the item's name; the submit sends
    `PATCH /items/<sku>` with the new name. */
module EditInventoryModal {
  import opened Wrappers
  import opened Domain
  import opened FormRules

  /** The `maxLength` of the name input. */
  const NameMaxLength := 100

  /** `/items/${item?.sku}`: with no item the path ends in "undefined". */
  function EditPath(item: Option<Item>): (path: string)
    ensures item.Some? ==> path == "/items/" + item.value.sku
    ensures item.None? ==> path == "/items/undefined"
  {
    "/items/" + (if item.Some? then item.value.sku else "undefined")
  }

  /** The request of a submit: the path and the `name` of the body. */
  datatype EditRequest = EditRequest(path: string, name: string)

  /** The request a submit sends for the current field, if the field validates. */
  function RequestFor(item: Option<Item>, itemMaster: Option<string>): (r: Option<EditRequest>)
    ensures r.Some? <==> NonBlank(itemMaster)
    ensures r.Some? ==> r.value.path == EditPath(item) && r.value.name == itemMaster.value
  {
    if NonBlank(itemMaster) then Some(EditRequest(EditPath(item), itemMaster.value)) else None
  }

  const UpdatedText := "Inventory item updated successfully"

  /** What `handleSubmit` shows and calls. A status other than 200 reads
      `data.message.message || "Failed to update inventory item"`, which throws
      for a missing message and then ends in the generic dialog. */
  function SubmitResult(formValid: bool, o: PostOutcome, hasOnSuccess: bool): (e: SubmitEffects)
    ensures !formValid ==> e == SubmitEffects(None, false, [])
    ensures e.formReset <==> formValid && o.PostResponse? && o.status == 200
    ensures e.formReset ==>
      (e.callbacks == SuccessCallbacks(hasOnSuccess) && e.alert == Some(SuccessAlert(UpdatedText)))
    ensures !e.formReset ==> e.callbacks == []
    ensures formValid && !e.formReset ==> e.alert.Some? && e.alert.value.ErrorAlert?
    ensures formValid && o.PostResponse? && o.status != 200 && o.message.NoMessage? ==>
      e.alert == Some(GenericFailureAlert)
  {
    if !formValid then SubmitEffects(None, false, [])
    else match o
      case PostResponse(status, message) =>
        if status == 200 then
          SubmitEffects(Some(SuccessAlert(UpdatedText)), true, SuccessCallbacks(hasOnSuccess))
        else
          (match NestedMessageOr(message, "Failed to update inventory item")
           case Failure(_) => SubmitEffects(Some(GenericFailureAlert), false, [])
           case Success(text) => SubmitEffects(Some(ErrorAlert("Error!", text)), false, []))
      case PostClientError(serverMessage) =>
        SubmitEffects(Some(ErrorAlert("Update Inventory Failed!", serverMessage.GetOr(""))), false, [])
      case PostOtherError => SubmitEffects(Some(GenericFailureAlert), false, [])
  }

  class EditInventoryForm {
    var itemMaster: Option<string>
    var submitting: bool

    constructor ()
      ensures itemMaster == None && !submitting
    {
      itemMaster := None;
      submitting := false;
    }

    /** Typing into the name input, which keeps at most 100 characters. */
    method SetItemMaster(value: string)
      modifies this`itemMaster
      ensures itemMaster.Some? && |itemMaster.value| <= NameMaxLength
      ensures itemMaster.value == if |value| <= NameMaxLength then value else value[..NameMaxLength]
    {
      itemMaster := Some(if |value| <= NameMaxLength then value else value[..NameMaxLength]);
    }

    /** The effect on `[open, item]`: an open modal with an item shows the
        item's name; otherwise the field is left alone. */
    method OnOpenOrItemChange(open: bool, item: Option<Item>)
      modifies this`itemMaster
      ensures open && item.Some? ==> itemMaster == Some(item.value.name)
      ensures !(open && item.Some?) ==> itemMaster == old(itemMaster)
    {
      if open && item.Some? {
        itemMaster := Some(item.value.name);
      }
    }

    /** `handleCancel`: reset the form, then `onCancel`. */
    method HandleCancel() returns (callbacks: seq<ModalCallback>)
      modifies this`itemMaster
      ensures itemMaster == None
      ensures callbacks == [CallOnCancel]
    {
      itemMaster := None;
      callbacks := [CallOnCancel];
    }

    /** `handleSubmit`. */
    method HandleSubmit(item: Option<Item>, hasOnSuccess: bool, o: PostOutcome)
      returns (request: Option<EditRequest>, effects: SubmitEffects)
      modifies this`itemMaster, this`submitting
      ensures request == RequestFor(item, old(itemMaster))
      ensures effects == SubmitResult(request.Some?, o, hasOnSuccess)
      ensures itemMaster == if effects.formReset then None else old(itemMaster)
      ensures !submitting
    {
      request := RequestFor(item, itemMaster);
      if request.None? {
        effects := SubmitResult(false, o, hasOnSuccess);
        submitting := false;
        return;
      }
      submitting := true;
      effects := SubmitResult(true, o, hasOnSuccess);
      if effects.formReset {
        itemMaster := None;
      }
      submitting := false;
    }
  }

  /** Opening the modal on an item and confirming at once sends the item's
      current name to that item's path, unless that name is blank. */
  lemma UntouchedSubmitResendsName(item: Item)
    ensures RequestFor(Some(item), Some(item.name)).Some? <==> NonBlank(Some(item.name))
    ensures NonBlank(Some(item.name)) ==>
      RequestFor(Some(item), Some(item.name)) == Some(EditRequest("/items/" + item.sku, item.name))
  {
  }
}
