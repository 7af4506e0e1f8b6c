/**
 * The request body shown in the payload editor and the two directions of
 * synchronisation between it and the card form: the preview built from the
 * form (`build_payload`, `update_payload_preview`) and the form refreshed from
 * the edited JSON (`on_payload_changed`).
 */
module Payload {
  import opened Wrappers
  import opened Json
  import opened Text
  import opened Catalog

  /** The four card line edits, in form order: number, holder name, expiry, CVV. */
  datatype CardFields = CardFields(number: string, name: string, dueDate: string, cvv: string)

  /** What the form shows: the card fields and the integration key field. */
  datatype FormState = FormState(card: CardFields, key: string)

  /** The payload editor's text as far as `json.loads` is concerned. */
  datatype PayloadText =
    | Blank                  // empty after `strip()`
    | Malformed              // `json.loads` raises `JSONDecodeError`
    | Wellformed(value: Json) // `json.loads` returns `value`

  /** The placeholder written when the key field is empty. */
  const Placeholder: string := "{integration_key}"

  /** `JSONTextEdit.get_json_data`: the decoded text, or nothing (blank, invalid, or JSON `null`). */
  function GetJsonData(t: PayloadText): (r: Option<Json>)
    ensures r.Some? <==> t.Wellformed? && t.value != JNull
    ensures r.Some? ==> r.value == t.value
  {
    match t
    case Wellformed(v) => if v == JNull then None else Some(v)
    case _ => None
  }

  /** The stripped contents of the four card fields (`text().strip()`). */
  function StripFields(f: CardFields): CardFields {
    CardFields(Strip(f.number), Strip(f.name), Strip(f.dueDate), Strip(f.cvv))
  }

  /** `self.key_edit.text() or "{integration_key}"`. */
  function KeyValue(keyText: string): Json {
    JStr(if keyText == "" then Placeholder else keyText)
  }

  /** The `ui_card` dict: the four card keys in form order. */
  function UiCard(f: CardFields): Members {
    [("card_number", JStr(f.number)), ("card_name", JStr(f.name)),
     ("card_due_date", JStr(f.dueDate)), ("card_cvv", JStr(f.cvv))]
  }

  predicate IsCardKey(k: string) {
    k == "card_number" || k == "card_name" || k == "card_due_date" || k == "card_cvv"
  }

  /** The value of form field `k` as a JSON string. */
  function CardFieldValue(f: CardFields, k: string): Json
    requires IsCardKey(k)
  {
    JStr(if k == "card_number" then f.number else if k == "card_name" then f.name
         else if k == "card_due_date" then f.dueDate else f.cvv)
  }

  /** `j[k]` for an object `j`; nothing for a missing key or a non-object. */
  function Field(j: Json, k: string): Option<Json> {
    match j
    case JObj(m) => Get(m, k)
    case _ => None
  }

  function Then(o: Option<Json>, k: string): Option<Json> {
    match o
    case None => None
    case Some(j) => Field(j, k)
  }

  /** `build_payload`: a request synthesised from the customer defaults and the form card. */
  function BuildPayload(customer: Customer, f: CardFields, keyText: string): Json {
    JObj([("integration_key", KeyValue(keyText)),
          ("operation", JStr("request")),
          ("payment", JObj(PaymentOf(customer, f)))])
  }

  /** The synthesised `payment` object: the customer defaults, then the card. */
  function PaymentOf(customer: Customer, f: CardFields): Members {
    [("amount_total", customer.defaultAmount),
     ("currency_code", customer.currencyCode),
     ("name", customer.name),
     ("email", customer.email),
     ("birth_date", customer.birthDate),
     ("country", customer.country),
     ("phone_number", customer.phoneNumber),
     ("card", JObj(SynthCard(f)))]
  }

  /** The synthesised `payment.card`: the form fields, then `auto_capture` and `threeds_force`. */
  function SynthCard(f: CardFields): Members {
    UiCard(f) + [("auto_capture", JBool(true)), ("threeds_force", JBool(false))]
  }

  /** `payload["payment"]["card"]` when both levels are objects. */
  function PaymentCard(data: Json): Option<Members> {
    match Then(Field(data, "payment"), "card")
    case Some(JObj(cm)) => Some(cm)
    case _ => None
  }

  /** `payload["payment"]["card"].update(ui_card)` on the card object. */
  function PatchCard(card: Members, f: CardFields): Members {
    Update(card, UiCard(f))
  }

  /** The top-level members after the card update and `payload["integration_key"] = key`. */
  function PatchTop(top: Members, pay: Members, card: Members, f: CardFields, keyText: string): Members {
    Put(Put(top, "payment", JObj(Put(pay, "card", JObj(PatchCard(card, f))))), "integration_key", KeyValue(keyText))
  }

  /**
   * The overlay of `update_payload_preview` on a truthy `custom_payload`:
   * `payment.card` gets the four form fields and `integration_key` the UI key.
   * None when the structure is not there, where the source falls back to
   * `build_payload`.
   */
  function Overlay(custom: Json, f: CardFields, keyText: string): Option<Json> {
    match custom
    case JObj(top) =>
      (match Get(top, "payment")
       case Some(JObj(pay)) =>
         (match Get(pay, "card")
          case Some(JObj(card)) => Some(JObj(PatchTop(top, pay, card, f, keyText)))
          case _ => None)
       case _ => None)
    case _ => None
  }

  /** The payload `update_payload_preview` writes into the editor, for a selected card. */
  function Preview(custom: Option<Json>, f: CardFields, keyText: string, customer: Customer): Json {
    if custom.Some? && Truthy(custom.value) then
      match Overlay(custom.value, f, keyText)
      case Some(p) => p
      case None => BuildPayload(customer, f, keyText)
    else BuildPayload(customer, f, keyText)
  }

  // ----------------------------------------------------------------------
  // Facts about the payload built from the form
  // ----------------------------------------------------------------------

  lemma UiCardUnique(f: CardFields)
    ensures UniqueKeys(UiCard(f))
    ensures forall k :: k in Keys(UiCard(f)) <==> IsCardKey(k)
  {
    assert Keys(UiCard(f)) == ["card_number", "card_name", "card_due_date", "card_cvv"];
  }

  lemma UiCardGet(f: CardFields, k: string)
    ensures Get(UiCard(f), k) == if IsCardKey(k) then Some(CardFieldValue(f, k)) else None
  {
    var m := UiCard(f);
    UiCardUnique(f);
    if k == "card_number" {
      GetAt(m, 0, k);
    } else if k == "card_name" {
      GetAt(m, 1, k);
    } else if k == "card_due_date" {
      GetAt(m, 2, k);
    } else if k == "card_cvv" {
      GetAt(m, 3, k);
    } else {
      GetMissing(m, k);
    }
  }

  /** The synthesised payload carries the UI key (or the placeholder) and `operation = "request"`. */
  lemma BuildPayloadTop(customer: Customer, f: CardFields, keyText: string)
    ensures Field(BuildPayload(customer, f, keyText), "integration_key") == Some(KeyValue(keyText))
    ensures Field(BuildPayload(customer, f, keyText), "operation") == Some(JStr("request"))
  {
    var top := BuildPayload(customer, f, keyText).members;
    GetAt(top, 0, "integration_key");
    GetAt(top, 1, "operation");
  }

  lemma SynthCardGet(f: CardFields, k: string)
    ensures IsCardKey(k) ==> Get(SynthCard(f), k) == Some(CardFieldValue(f, k))
    ensures k == "auto_capture" ==> Get(SynthCard(f), k) == Some(JBool(true))
    ensures k == "threeds_force" ==> Get(SynthCard(f), k) == Some(JBool(false))
  {
    var cm := SynthCard(f);
    assert UniqueKeys(cm);
    if k == "card_number" {
      GetUnique(cm, 0);
    } else if k == "card_name" {
      GetUnique(cm, 1);
    } else if k == "card_due_date" {
      GetUnique(cm, 2);
    } else if k == "card_cvv" {
      GetUnique(cm, 3);
    } else if k == "auto_capture" {
      GetUnique(cm, 4);
    } else if k == "threeds_force" {
      GetUnique(cm, 5);
    }
  }

  lemma BuildPayloadPayment(customer: Customer, f: CardFields, keyText: string)
    ensures Field(BuildPayload(customer, f, keyText), "payment") == Some(JObj(PaymentOf(customer, f)))
  {
    var top := BuildPayload(customer, f, keyText).members;
    GetAt(top, 2, "payment");
  }

  /** The customer part of the synthesised `payment` object. */
  lemma PaymentOfCustomer(customer: Customer, f: CardFields)
    ensures Get(PaymentOf(customer, f), "amount_total") == Some(customer.defaultAmount)
    ensures Get(PaymentOf(customer, f), "currency_code") == Some(customer.currencyCode)
    ensures Get(PaymentOf(customer, f), "name") == Some(customer.name)
    ensures Get(PaymentOf(customer, f), "email") == Some(customer.email)
    ensures Get(PaymentOf(customer, f), "birth_date") == Some(customer.birthDate)
    ensures Get(PaymentOf(customer, f), "country") == Some(customer.country)
    ensures Get(PaymentOf(customer, f), "phone_number") == Some(customer.phoneNumber)
  {
    var pm := PaymentOf(customer, f);
    assert UniqueKeys(pm);
    GetUnique(pm, 0);
    GetUnique(pm, 1);
    GetUnique(pm, 2);
    GetUnique(pm, 3);
    GetUnique(pm, 4);
    GetUnique(pm, 5);
    GetUnique(pm, 6);
  }

  /** The other `payment` fields of the synthesised payload are the customer's defaults. */
  lemma BuildPayloadCustomer(customer: Customer, f: CardFields, keyText: string)
    ensures var pay := Field(BuildPayload(customer, f, keyText), "payment");
            && Then(pay, "amount_total") == Some(customer.defaultAmount)
            && Then(pay, "currency_code") == Some(customer.currencyCode)
            && Then(pay, "name") == Some(customer.name)
            && Then(pay, "email") == Some(customer.email)
            && Then(pay, "birth_date") == Some(customer.birthDate)
            && Then(pay, "country") == Some(customer.country)
            && Then(pay, "phone_number") == Some(customer.phoneNumber)
  {
    BuildPayloadPayment(customer, f, keyText);
    PaymentOfCustomer(customer, f);
  }

  /** `payment.card` of the synthesised payload: the four form fields, `auto_capture = true`, `threeds_force = false`. */
  lemma BuildPayloadCard(customer: Customer, f: CardFields, keyText: string, k: string)
    ensures var card := Then(Then(Field(BuildPayload(customer, f, keyText), "payment"), "card"), k);
            && (IsCardKey(k) ==> card == Some(CardFieldValue(f, k)))
            && (k == "auto_capture" ==> card == Some(JBool(true)))
            && (k == "threeds_force" ==> card == Some(JBool(false)))
  {
    var pay := Field(BuildPayload(customer, f, keyText), "payment");
    BuildPayloadPayment(customer, f, keyText);
    assert pay == Some(JObj(PaymentOf(customer, f)));
    PaymentOfCard(customer, f);
    assert Then(pay, "card") == Some(JObj(SynthCard(f)));
    SynthCardGet(f, k);
  }

  lemma PaymentOfCard(customer: Customer, f: CardFields)
    ensures Get(PaymentOf(customer, f), "card") == Some(JObj(SynthCard(f)))
  {
    var pm := PaymentOf(customer, f);
    assert UniqueKeys(pm);
    GetUnique(pm, 7);
  }

  /** The overlay happens exactly when `payment.card` is an object; otherwise the preview is rebuilt. */
  lemma OverlayWhenStructured(custom: Json, f: CardFields, keyText: string)
    ensures Overlay(custom, f, keyText).Some? <==> PaymentCard(custom).Some?
  {
  }

  /** The updated card object has the four form fields and every other card key as before. */
  lemma PatchCardGet(card: Members, f: CardFields, k: string)
    ensures Get(PatchCard(card, f), k) == if IsCardKey(k) then Some(CardFieldValue(f, k)) else Get(card, k)
    ensures Keys(card) <= Keys(PatchCard(card, f))
  {
    UiCardUnique(f);
    UiCardGet(f, k);
    GetUpdate(card, UiCard(f), k);
    KeysUpdate(card, UiCard(f));
  }

  /** The patched top level: the UI key, the patched payment, and every other key as before, in the old order. */
  lemma PatchTopGet(top: Members, pay: Members, card: Members, f: CardFields, keyText: string, k: string)
    ensures var pay' := JObj(Put(pay, "card", JObj(PatchCard(card, f))));
            Get(PatchTop(top, pay, card, f, keyText), k)
            == if k == "integration_key" then Some(KeyValue(keyText))
               else if k == "payment" then Some(pay')
               else Get(top, k)
    ensures Keys(top) <= Keys(PatchTop(top, pay, card, f, keyText))
  {
    var pay' := JObj(Put(pay, "card", JObj(PatchCard(card, f))));
    var top1 := Put(top, "payment", pay');
    GetPut(top1, "integration_key", KeyValue(keyText), k);
    GetPut(top, "payment", pay', k);
    KeysPut(top, "payment", pay');
    KeysPut(top1, "integration_key", KeyValue(keyText));
  }

  /**
   * At the top level the overlay writes `integration_key`, keeps every other
   * key except `payment` as it was, and keeps the existing keys in their order.
   */
  lemma OverlayTop(custom: Json, f: CardFields, keyText: string, k: string)
    requires Overlay(custom, f, keyText).Some?
    ensures var r := Overlay(custom, f, keyText).value;
            && r.JObj? && Keys(custom.members) <= Keys(r.members)
            && Field(r, "integration_key") == Some(KeyValue(keyText))
            && (k != "payment" && k != "integration_key" ==> Field(r, k) == Field(custom, k))
  {
    var top := custom.members;
    var pay := Get(top, "payment").value.members;
    var card := Get(pay, "card").value.members;
    PatchTopGet(top, pay, card, f, keyText, k);
    PatchTopGet(top, pay, card, f, keyText, "integration_key");
  }

  /** Inside `payment`, only `card` changes. */
  lemma OverlayPayment(custom: Json, f: CardFields, keyText: string, k: string)
    requires Overlay(custom, f, keyText).Some?
    requires k != "card"
    ensures var r := Overlay(custom, f, keyText).value;
            Then(Field(r, "payment"), k) == Then(Field(custom, "payment"), k)
  {
    var top := custom.members;
    var pay := Get(top, "payment").value.members;
    var card := Get(pay, "card").value.members;
    var r := Overlay(custom, f, keyText).value;
    PatchTopGet(top, pay, card, f, keyText, "payment");
    assert Field(r, "payment") == Some(JObj(Put(pay, "card", JObj(PatchCard(card, f)))));
    GetPut(pay, "card", JObj(PatchCard(card, f)), k);
  }

  /** Inside `payment.card`, the four form fields are written and every other key is kept. */
  lemma OverlayCard(custom: Json, f: CardFields, keyText: string, k: string)
    requires Overlay(custom, f, keyText).Some?
    ensures var r := Overlay(custom, f, keyText).value;
            Then(Then(Field(r, "payment"), "card"), k)
            == if IsCardKey(k) then Some(CardFieldValue(f, k))
               else Then(Then(Field(custom, "payment"), "card"), k)
  {
    var top := custom.members;
    var pay := Get(top, "payment").value.members;
    var card := Get(pay, "card").value.members;
    var card' := PatchCard(card, f);
    var r := Overlay(custom, f, keyText).value;
    PatchTopGet(top, pay, card, f, keyText, "payment");
    assert Field(r, "payment") == Some(JObj(Put(pay, "card", JObj(card'))));
    GetPut(pay, "card", JObj(card'), "card");
    assert Then(Field(r, "payment"), "card") == Some(JObj(card'));
    PatchCardGet(card, f, k);
  }

  /** Whatever the saved payload holds, the preview's `integration_key` is the UI key (or the placeholder). */
  lemma PreviewKey(custom: Option<Json>, f: CardFields, keyText: string, customer: Customer)
    ensures Field(Preview(custom, f, keyText, customer), "integration_key") == Some(KeyValue(keyText))
  {
    if custom.Some? && Truthy(custom.value) && Overlay(custom.value, f, keyText).Some? {
      OverlayTop(custom.value, f, keyText, "integration_key");
    } else {
      BuildPayloadTop(customer, f, keyText);
    }
  }

  /** The preview's `payment.card` holds the four form fields, with or without a saved payload. */
  lemma PreviewCard(custom: Option<Json>, f: CardFields, keyText: string, customer: Customer, k: string)
    requires IsCardKey(k)
    ensures Then(Then(Field(Preview(custom, f, keyText, customer), "payment"), "card"), k)
            == Some(CardFieldValue(f, k))
  {
    if custom.Some? && Truthy(custom.value) && Overlay(custom.value, f, keyText).Some? {
      OverlayCard(custom.value, f, keyText, k);
    } else {
      BuildPayloadCard(customer, f, keyText, k);
    }
  }

  // ----------------------------------------------------------------------
  // From the edited JSON back to the form
  // ----------------------------------------------------------------------

  /** `str(card_data.get(key, ""))`. */
  function CardText(cm: Members, k: string): string {
    Str(Get(cm, k).GetOr(JStr("")))
  }

  /** The four form fields read from `payment.card`, when that is an object. */
  function CardFromPayload(data: Json): Option<CardFields> {
    match PaymentCard(data)
    case None => None
    case Some(cm) =>
      Some(CardFields(CardText(cm, "card_number"), CardText(cm, "card_name"),
                      CardText(cm, "card_due_date"), CardText(cm, "card_cvv")))
  }

  /** The key to copy into the key field: a truthy `integration_key` other than the placeholder. */
  function KeyFromPayload(data: Json): Option<string> {
    match Field(data, "integration_key")
    case Some(v) => if Truthy(v) && v != JStr(Placeholder) then Some(Str(v)) else None
    case None => None
  }

  /**
   * The form after `on_payload_changed` saw `data` (the result of
   * `get_json_data`), with the guard flag returned to Idle in every case: no
   * data or falsy data changes nothing; otherwise the card fields follow
   * `payment.card` and the key field a usable `integration_key`.
   */
  function SyncFromPayload(data: Option<Json>, view: FormState): FormState {
    if data.None? || !Truthy(data.value) then view
    else FormState(CardFromPayload(data.value).GetOr(view.card), KeyFromPayload(data.value).GetOr(view.key))
  }

  lemma {:induction false} StrOfString(s: string)
    ensures Str(JStr(s)) == s
  {
  }

  /**
   * Preview then sync: parsing the preview back gives the stripped form
   * fields and leaves the key field as it was.
   */
  lemma PreviewSyncRoundTrip(custom: Option<Json>, form: CardFields, keyText: string, customer: Customer)
    ensures var p := Preview(custom, StripFields(form), keyText, customer);
            SyncFromPayload(GetJsonData(Wellformed(p)), FormState(form, keyText))
            == FormState(StripFields(form), keyText)
  {
    PreviewSync(custom, StripFields(form), keyText, customer, form);
  }

  /** Syncing from a preview built from `f` puts `f` in the card fields and keeps the key field. */
  lemma PreviewSync(custom: Option<Json>, f: CardFields, keyText: string, customer: Customer, shown: CardFields)
    ensures SyncFromPayload(GetJsonData(Wellformed(Preview(custom, f, keyText, customer))), FormState(shown, keyText))
            == FormState(f, keyText)
  {
    var p := Preview(custom, f, keyText, customer);
    PreviewKey(custom, f, keyText, customer);
    assert p.JObj? && p.members != [];
    assert GetJsonData(Wellformed(p)) == Some(p);
    PreviewCardFields(custom, f, keyText, customer);
    assert KeyFromPayload(p).GetOr(keyText) == keyText;
  }

  /** The four card fields read back from a preview are the form fields it was built from. */
  lemma PreviewCardFields(custom: Option<Json>, f: CardFields, keyText: string, customer: Customer)
    ensures CardFromPayload(Preview(custom, f, keyText, customer)) == Some(f)
  {
    var p := Preview(custom, f, keyText, customer);
    PreviewCard(custom, f, keyText, customer, "card_number");
    PreviewCard(custom, f, keyText, customer, "card_name");
    PreviewCard(custom, f, keyText, customer, "card_due_date");
    PreviewCard(custom, f, keyText, customer, "card_cvv");
    var c := Then(Field(p, "payment"), "card");
    assert c.Some? && c.value.JObj?;
    var cm := c.value.members;
    assert PaymentCard(p) == Some(cm);
    assert CardText(cm, "card_number") == f.number;
    assert CardText(cm, "card_name") == f.name;
    assert CardText(cm, "card_due_date") == f.dueDate;
    assert CardText(cm, "card_cvv") == f.cvv;
  }

  /** Syncing the form from data that carries it again is a no-op: the sync direction is idempotent. */
  lemma SyncIdempotent(data: Option<Json>, view: FormState)
    ensures SyncFromPayload(data, SyncFromPayload(data, view)) == SyncFromPayload(data, view)
  {
  }

  // ----------------------------------------------------------------------
  // The two exception paths of the source as written
  // ----------------------------------------------------------------------

  /** How the `try` block of `update_payload_preview` ends. */
  datatype PatchAttempt =
    | Patched(payload: Json) // the card and key overlay went through
    | Caught                 // KeyError or TypeError: the handler rebuilds the payload
    | Escaped                // AttributeError: not in the `except` tuple, the method stops

  /** `payment.card` exists under an object `payment` but is not an object itself. */
  predicate CardNotObject(data: Json) {
    match Then(Field(data, "payment"), "card")
    case Some(v) => !v.JObj?
    case None => false
  }

  /**
   * The overlay as written: subscripting a non-object raises TypeError and a
   * missing key KeyError, both caught; `.update` on a `payment.card` that is
   * not a dict raises AttributeError, which escapes.
   */
  function OverlayAsWritten(custom: Json, f: CardFields, keyText: string): PatchAttempt {
    match custom
    case JObj(top) =>
      (match Get(top, "payment")
       case Some(JObj(pay)) =>
         (match Get(pay, "card")
          case Some(JObj(card)) => Patched(JObj(PatchTop(top, pay, card, f, keyText)))
          case Some(_) => Escaped
          case None => Caught)
       case _ => Caught)
    case _ => Caught
  }

  /** The preview as written; None when the exception escapes and the editor keeps its old text. */
  function PreviewAsWritten(custom: Option<Json>, f: CardFields, keyText: string, customer: Customer): Option<Json> {
    if custom.Some? && Truthy(custom.value) then
      match OverlayAsWritten(custom.value, f, keyText)
      case Patched(p) => Some(p)
      case Caught => Some(BuildPayload(customer, f, keyText))
      case Escaped => None
    else Some(BuildPayload(customer, f, keyText))
  }

  /**
   * The preview as written fails exactly on a saved payload whose
   * `payment.card` is not an object; everywhere else it is the corrected
   * preview, which falls back to `build_payload` in that case too.
   */
  lemma PreviewAsWrittenAgrees(custom: Option<Json>, f: CardFields, keyText: string, customer: Customer)
    ensures PreviewAsWritten(custom, f, keyText, customer).None?
            <==> custom.Some? && Truthy(custom.value) && CardNotObject(custom.value)
    ensures PreviewAsWritten(custom, f, keyText, customer).Some?
            ==> PreviewAsWritten(custom, f, keyText, customer).value == Preview(custom, f, keyText, customer)
  {
  }

  /** A saved payload `{"payment": {"card": null}}` leaves the preview stale. */
  lemma PreviewAsWrittenFails(f: CardFields, keyText: string, customer: Customer)
    ensures var custom := JObj([("payment", JObj([("card", JNull)]))]);
            && PreviewAsWritten(Some(custom), f, keyText, customer).None?
            && Preview(Some(custom), f, keyText, customer) == BuildPayload(customer, f, keyText)
  {
    var pay := [("card", JNull)];
    var top := [("payment", JObj(pay))];
    GetAt(top, 0, "payment");
    GetAt(pay, 0, "card");
  }

  /** The form after `on_payload_changed` as written, and whether `_syncing` stays raised. */
  datatype SyncOutcome = SyncOutcome(view: FormState, stuck: bool)

  /** `"integration_key" in data` raises TypeError: `data` is a number or a boolean. */
  predicate MembershipRaises(data: Json) {
    data.JInt? || data.JBool?
  }

  /** `data["integration_key"]` runs on a list or a string, which raises TypeError. */
  predicate KeyLookupRaises(data: Json) {
    match data
    case JArr(a) => JStr("integration_key") in a
    case JStr(s) => Contains(s, "integration_key")
    case _ => false
  }

  /**
   * `on_payload_changed` as written. Once `_syncing` is set, an exception
   * outside the `except (KeyError, TypeError)` handler skips the final
   * `self._syncing = False`: `.get` on a `payment.card` that is not a dict
   * (AttributeError), and the key test on a number, boolean, or list or
   * string holding "integration_key" (TypeError outside the `try`).
   */
  function SyncAsWritten(data: Option<Json>, view: FormState): SyncOutcome {
    if data.None? || !Truthy(data.value) then SyncOutcome(view, false)
    else
      var d := data.value;
      if CardNotObject(d) then SyncOutcome(view, true)
      else
        var card := CardFromPayload(d).GetOr(view.card);
        if MembershipRaises(d) || KeyLookupRaises(d) then SyncOutcome(FormState(card, view.key), true)
        else SyncOutcome(FormState(card, KeyFromPayload(d).GetOr(view.key)), false)
  }

  /**
   * The guard flag stays raised exactly in those cases; when it comes back
   * down, the form is the one the corrected `SyncFromPayload` computes.
   */
  lemma SyncAsWrittenAgrees(data: Option<Json>, view: FormState)
    ensures SyncAsWritten(data, view).stuck
            <==> data.Some? && Truthy(data.value)
                 && (CardNotObject(data.value) || MembershipRaises(data.value) || KeyLookupRaises(data.value))
    ensures !SyncAsWritten(data, view).stuck ==> SyncAsWritten(data, view).view == SyncFromPayload(data, view)
  {
  }

  /** Typing `1` into the payload editor leaves `_syncing` raised, and every later sync is skipped. */
  lemma SyncAsWrittenStuckOnNumber(view: FormState)
    ensures SyncAsWritten(Some(JInt(1)), view).stuck
    ensures SyncFromPayload(Some(JInt(1)), view) == view
  {
  }

  // ----------------------------------------------------------------------
  // `save_payload_for_card`
  // ----------------------------------------------------------------------

  /**
   * `if "integration_key" in payload_data: del payload_data["integration_key"]`.
   * None stands for the TypeError this raises on a number or boolean, and on
   * an array or string that contains "integration_key"; nothing is saved then.
   */
  function StripIntegrationKey(data: Json): Option<Json> {
    match data
    case JObj(m) => Some(JObj(Remove(m, "integration_key")))
    case JArr(a) => if JStr("integration_key") in a then None else Some(data)
    case JStr(s) => if Contains(s, "integration_key") then None else Some(data)
    case _ => None
  }

  /** The stored payload of an object has no `integration_key` and every other key as before. */
  lemma StripIntegrationKeyObject(m: Members, k: string)
    ensures StripIntegrationKey(JObj(m)).Some?
    ensures Field(StripIntegrationKey(JObj(m)).value, "integration_key") == None
    ensures k != "integration_key" ==> Field(StripIntegrationKey(JObj(m)).value, k) == Field(JObj(m), k)
  {
    GetRemove(m, "integration_key", k);
    GetRemove(m, "integration_key", "integration_key");
  }
}
