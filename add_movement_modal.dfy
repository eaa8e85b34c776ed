/** `AddMovementModal`: the form that records an inbound or outbound stock
    movement for one item. Its rules: an activity is required; the quantity
    is a whole number of at least 1 and, for an outbound movement, at most
    the item's stock; the note may be empty but not longer than 50
    characters once trimmed. The quantity box shows thousands separators and
    lets through only digit keys, editing keys and shortcuts. */
module AddMovementModal {
  import opened Wrappers
  import opened Domain
  import opened Text
  import opened FormRules

  // ---------------------------------------------------------------- quantity

  predicate IsInteger(v: real) {
    v == v.Floor as real
  }

  /** `item?.qty || 0`: the stock an outbound movement may take. */
  function StockLimit(item: Option<Item>): (limit: int)
    ensures item.Some? ==> limit == item.value.qty
    ensures item.None? ==> limit == 0
  {
    if item.Some? then item.value.qty else 0
  }

  /** The three rules of the QTY field, as written: `required`; `type:
      "number", min: 1`; and the validator, whose first two tests only look
      at a truthy (present, non-zero) value. */
  predicate QtyRulesPass(qty: Option<real>, activity: Option<ActivityType>, item: Option<Item>) {
    var required := qty.Some?;
    var atLeastOne := qty.None? || qty.value >= 1.0;
    var truthy := qty.Some? && qty.value != 0.0;
    var validator :=
      !(truthy && !IsInteger(qty.value))
      && !(truthy && qty.value < 1.0)
      && !(activity == Some(Outbound) && qty.Some? && qty.value > StockLimit(item) as real);
    required && atLeastOne && validator
  }

  /** What the rules add up to. */
  lemma QtyRulesMeaning(qty: Option<real>, activity: Option<ActivityType>, item: Option<Item>)
    ensures QtyRulesPass(qty, activity, item) <==>
      qty.Some? && qty.value >= 1.0 && IsInteger(qty.value)
      && (activity == Some(Outbound) ==> qty.value <= StockLimit(item) as real)
  {
  }

  /** Without an item, or with no stock, no outbound quantity is accepted. */
  lemma NoOutboundWithoutStock(qty: Option<real>, item: Option<Item>)
    requires item.None? || item.value.qty <= 0
    ensures !QtyRulesPass(qty, Some(Outbound), item)
  {
  }

  // ---------------------------------------------------------------- note

  const NoteMaxLength := 50

  /** The `maxLength` of the note input: it never passes on more characters. */
  const NoteInputMaxLength := 100

  /** The text the note input hands to `onChange` when `text` is typed or
      pasted: at most its first 100 characters. */
  function NoteInput(text: string): (typed: string)
    ensures |typed| <= NoteInputMaxLength && typed <= text
    ensures |text| <= NoteInputMaxLength ==> typed == text
  {
    if |text| <= NoteInputMaxLength then text else text[..NoteInputMaxLength]
  }

  /** The note validator: absent, empty or blank is fine; otherwise the
      trimmed note may not exceed 50 characters. */
  predicate NoteRulePasses(note: Option<string>) {
    if note.None? || note.value == "" || |Trim(note.value)| == 0 then true
    else |Trim(note.value)| <= NoteMaxLength
  }

  lemma NoteRuleMeaning(note: Option<string>)
    ensures NoteRulePasses(note) <==> note.None? || |Trim(note.value)| <= NoteMaxLength
  {
  }

  /** `noteCount`, shown as `${noteCount}/50`. */
  function NoteCount(noteValue: string): (n: nat)
    ensures n <= |noteValue|
    ensures n == 0 <==> AllWhitespace(noteValue)
  {
    |Trim(noteValue)|
  }

  /** The counter under the note: the count in decimal, then "/50". The
      count reads back from the text, and the counter shows "0/50" exactly
      when the note is blank. */
  function CounterText(noteValue: string): (t: string)
    ensures |t| > 3 && t[|t| - 3..] == "/50"
    ensures AllDigits(t[..|t| - 3]) && DigitsValue(t[..|t| - 3]) == NoteCount(noteValue)
    ensures t == "0/50" <==> AllWhitespace(noteValue)
  {
    var d := ToDecimal(NoteCount(noteValue));
    assert (d + "/50")[..|d|] == d;
    assert NoteCount(noteValue) == 0 ==> d == "0";
    assert d + "/50" == "0/50" ==> d == "0";
    d + "/50"
  }

  /** `handleNoteChange` stores the typed text without its leading
      whitespace; that changes neither the count nor what the rule decides. */
  lemma NoteChangeKeepsCountAndRule(value: string)
    ensures TrimStart(value) == [] || !IsWhitespace(TrimStart(value)[0])
    ensures NoteCount(TrimStart(value)) == NoteCount(value)
    ensures NoteRulePasses(Some(TrimStart(value))) == NoteRulePasses(Some(value))
  {
    assert TrimStart(TrimStart(value)) == TrimStart(value);
  }

  /** The note that is posted: `values.note ? values.note.trim() : null`,
      then `|| null`. */
  function PostedNote(note: Option<string>): (r: Option<string>)
    ensures r.None? <==> note.None? || Trim(note.value) == ""
    ensures r.Some? ==>
      (r.value == Trim(note.value) && r.value != ""
       && !IsWhitespace(r.value[0]) && !IsWhitespace(r.value[|r.value| - 1]))
  {
    if note.Some? && note.value != "" then
      var t := Trim(note.value);
      if t != "" then Some(t) else None
    else None
  }

  // ---------------------------------------------------------------- quantity display

  /** A `\w` character of a JavaScript regular expression. */
  predicate IsWordChar(c: char) {
    ('a' <= c <= 'z') || ('A' <= c <= 'Z') || ('0' <= c <= '9') || c == '_'
  }

  /** Where `/\B(?=(\d{3})+(?!\d))/g` matches: inside a word (so not at the
      start), in front of a maximal run of digits whose length is a positive
      multiple of three. */
  predicate CommaBefore(s: string, p: int)
    requires 0 <= p < |s|
  {
    p > 0 && IsWordChar(s[p - 1]) && DigitPrefix(s[p..]) > 0 && DigitPrefix(s[p..]) % 3 == 0
  }

  /** The replacement from position `p` on: a "," in front of every match. */
  function InsertCommas(s: string, p: nat): string
    requires p <= |s|
    decreases |s| - p
  {
    if p == |s| then ""
    else (if CommaBefore(s, p) then "," else "") + [s[p]] + InsertCommas(s, p + 1)
  }

  /** The formatter of the quantity box. */
  function FormatQty(value: string): string {
    if value == "" then "" else InsertCommas(value, 0)
  }

  function RemoveCommas(t: string): (r: string)
    ensures ',' !in r
  {
    if t == [] then "" else (if t[0] == ',' then "" else [t[0]]) + RemoveCommas(t[1..])
  }

  lemma {:induction false} RemoveCommasAppend(a: string, b: string)
    ensures RemoveCommas(a + b) == RemoveCommas(a) + RemoveCommas(b)
  {
    if a == [] {
      assert a + b == b;
    } else {
      assert (a + b)[0] == a[0];
      assert (a + b)[1..] == a[1..] + b;
      RemoveCommasAppend(a[1..], b);
    }
  }

  lemma {:induction false} InsertCommasRemoved(s: string, p: nat)
    requires p <= |s| && ',' !in s
    ensures RemoveCommas(InsertCommas(s, p)) == s[p..]
    decreases |s| - p
  {
    if p < |s| {
      var head := (if CommaBefore(s, p) then "," else "") + [s[p]];
      RemoveCommasAppend(head, InsertCommas(s, p + 1));
      InsertCommasRemoved(s, p + 1);
      assert RemoveCommas(head) == [s[p]] by {
        if CommaBefore(s, p) {
          assert head[1..] == [s[p]];
        }
      }
      assert s[p..] == [s[p]] + s[p + 1..];
    }
  }

  /** Removing the separators gives back what was typed. */
  lemma FormatQtyRoundTrip(value: string)
    requires ',' !in value
    ensures RemoveCommas(FormatQty(value)) == value
  {
    if value != "" {
      InsertCommasRemoved(value, 0);
    }
  }

  /** On a numeral the separators go exactly in front of every third digit
      counted from the right, never in front of the first. */
  lemma CommaPositionsOfNumeral(s: string, p: int)
    requires AllDigits(s) && 0 <= p < |s|
    ensures CommaBefore(s, p) <==> p > 0 && (|s| - p) % 3 == 0
  {
    var k := DigitPrefix(s[p..]);
    assert forall i :: 0 <= i < |s[p..]| ==> IsDigit(s[p..][i]);
    assert k == |s| - p;
  }

  // ---------------------------------------------------------------- key filter

  const ControlKeys: seq<string> := ["Backspace", "Delete", "Tab", "ArrowLeft", "ArrowRight", "Home", "End"]

  /** `e.key >= "0" && e.key <= "9"`, a comparison of strings. */
  predicate IsNumberKey(key: string) {
    LexLessEq("0", key) && LexLessEq(key, "9")
  }

  /** The key filter lets a key through unless it is neither a number key
      nor a control key; otherwise it calls `preventDefault`. */
  predicate KeyAllowed(key: string, ctrlKey: bool, metaKey: bool) {
    IsNumberKey(key) || key in ControlKeys || ctrlKey || metaKey
  }

  /** The string comparison admits exactly the single digits, plus multi-
      character keys that start with 0 to 8 (no such key name exists). */
  lemma NumberKeyMeaning(key: string)
    ensures IsNumberKey(key) <==> key != [] && (('0' <= key[0] < '9') || key == "9")
    ensures |key| == 1 ==> (IsNumberKey(key) <==> IsDigit(key[0]))
  {
    if key != [] && key[0] == '0' {
      assert LexLessEq("0", key) by {
        assert LexLessEq("0"[1..], key[1..]);
      }
    }
    if key != [] && key[0] == '9' && |key| > 1 {
      assert !LexLessEq(key[1..], "9"[1..]);
    }
  }

  /** Letters and signs are blocked unless a modifier is held. */
  lemma LettersBlocked(c: char)
    requires ('a' <= c <= 'z') || ('A' <= c <= 'Z') || c == '-' || c == '.' || c == 'e'
    ensures !KeyAllowed([c], false, false)
  {
    NumberKeyMeaning([c]);
  }

  // ---------------------------------------------------------------- submit

  /** The body of `POST /item/movements`. */
  datatype MovementPayload = MovementPayload(
    sku: Option<string>,
    activityType: ActivityType,
    qty: real,
    note: Option<string>,
    warehouseId: Option<int>)

  /** Every rule of the form passes. */
  predicate FormValid(activity: Option<ActivityType>, qty: Option<real>, note: Option<string>, item: Option<Item>) {
    activity.Some? && QtyRulesPass(qty, activity, item) && NoteRulePasses(note)
  }

  function BuildPayload(item: Option<Item>, activity: ActivityType, qty: real, note: Option<string>)
    : (p: MovementPayload)
    ensures p.sku == (if item.Some? then Some(item.value.sku) else None)
    ensures p.warehouseId == (if item.Some? then Some(item.value.warehouseId) else None)
    ensures p.activityType == activity && p.qty == qty && p.note == PostedNote(note)
  {
    MovementPayload(
      if item.Some? then Some(item.value.sku) else None,
      activity, qty, PostedNote(note),
      if item.Some? then Some(item.value.warehouseId) else None)
  }

  /** What `handleSubmit` shows and calls. A failed validation is caught
      like any other non-client error and raises the generic dialog. For
      another status than 201 the dialog text is `data.message.message ||
      "Failed to add movement"`; a response without a message makes that
      expression throw, which ends in the generic dialog too. */
  function SubmitResult(formValid: bool, o: PostOutcome, hasOnSuccess: bool): (e: SubmitEffects)
    ensures e.formReset <==> formValid && o.PostResponse? && o.status == 201
    ensures e.formReset ==>
      (e.callbacks == SuccessCallbacks(hasOnSuccess)
       && e.alert == Some(SuccessAlert(MessageText(o.message))))
    ensures !e.formReset ==> e.callbacks == [] && e.alert.Some? && e.alert.value.ErrorAlert?
    ensures !formValid ==> e.alert == Some(GenericFailureAlert)
  {
    if !formValid then SubmitEffects(Some(GenericFailureAlert), false, [])
    else match o
      case PostResponse(status, message) =>
        if status == 201 then
          SubmitEffects(Some(SuccessAlert(MessageText(message))), true, SuccessCallbacks(hasOnSuccess))
        else
          (match NestedMessageOr(message, "Failed to add movement")
           case Failure(_) => SubmitEffects(Some(GenericFailureAlert), false, [])
           case Success(text) => SubmitEffects(Some(ErrorAlert("Error!", text)), false, []))
      case PostClientError(serverMessage) =>
        SubmitEffects(Some(ErrorAlert("Add Movement Failed!", serverMessage.GetOr(""))), false, [])
      case PostOtherError => SubmitEffects(Some(GenericFailureAlert), false, [])
  }

  /** A refused movement with the usual string message shows the fixed text:
      the server's own message is never displayed on that path. */
  lemma RefusalShowsFixedText(status: int, text: string, hasOnSuccess: bool)
    requires status != 201
    ensures SubmitResult(true, PostResponse(status, TextMessage(text)), hasOnSuccess).alert
      == Some(ErrorAlert("Error!", "Failed to add movement"))
  {
  }

  class AddMovementForm {
    var activity: Option<ActivityType>
    var qty: Option<real>
    var note: Option<string>
    var noteValue: string
    var submitting: bool

    constructor ()
      ensures activity == None && qty == None && note == None && noteValue == "" && !submitting
    {
      activity := None;
      qty := None;
      note := None;
      noteValue := "";
      submitting := false;
    }

    method SetActivity(a: ActivityType)
      modifies this`activity
      ensures activity == Some(a)
    {
      activity := Some(a);
    }

    method SetQty(v: Option<real>)
      modifies this`qty
      ensures qty == v
    {
      qty := v;
    }

    /** `handleNoteChange` on what the input passed on: the field and the
        counter both get the text without its leading whitespace. */
    method HandleNoteChange(text: string)
      modifies this`noteValue, this`note
      ensures noteValue == TrimStart(NoteInput(text)) && note == Some(noteValue)
      ensures |noteValue| <= NoteInputMaxLength
    {
      var trimmed := TrimStart(NoteInput(text));
      noteValue := trimmed;
      note := Some(trimmed);
    }

    /** `handleCancel`: reset the form and the counter, then `onCancel`. */
    method HandleCancel() returns (callbacks: seq<ModalCallback>)
      modifies this`activity, this`qty, this`note, this`noteValue
      ensures activity == None && qty == None && note == None && noteValue == ""
      ensures callbacks == [CallOnCancel]
    {
      activity, qty, note, noteValue := None, None, None, "";
      callbacks := [CallOnCancel];
    }

    /** The Confirm button is enabled exactly when the form validates. */
    predicate Submittable(item: Option<Item>)
      reads this
    {
      FormValid(activity, qty, note, item)
    }

    /** `handleSubmit`: validate, post, and report. */
    method HandleSubmit(item: Option<Item>, hasOnSuccess: bool, o: PostOutcome)
      returns (payload: Option<MovementPayload>, effects: SubmitEffects)
      modifies this`activity, this`qty, this`note, this`noteValue, this`submitting
      ensures payload.Some? <==> FormValid(old(activity), old(qty), old(note), item)
      ensures payload.Some? ==>
        payload.value == BuildPayload(item, old(activity).value, old(qty).value, old(note))
      ensures effects == SubmitResult(payload.Some?, o, hasOnSuccess)
      ensures effects.formReset ==> activity == None && qty == None && note == None && noteValue == ""
      ensures !effects.formReset ==>
        activity == old(activity) && qty == old(qty) && note == old(note) && noteValue == old(noteValue)
      ensures !submitting
    {
      if !FormValid(activity, qty, note, item) {
        payload := None;
        effects := SubmitResult(false, o, hasOnSuccess);
        submitting := false;
        return;
      }
      submitting := true;
      payload := Some(BuildPayload(item, activity.value, qty.value, note));
      effects := SubmitResult(true, o, hasOnSuccess);
      if effects.formReset {
        activity, qty, note, noteValue := None, None, None, "";
      }
      submitting := false;
    }
  }
}
