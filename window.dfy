/**
 * `TesterWindow` without its widgets: the data behind the card selector, the
 * card form, the key field, the payload editor and the PTP selector, and the
 * event handlers that keep them in step. A programmatic `setText` on the
 * payload editor or the key field fires the connected handler at once, as a
 * Qt signal does; the `_syncing` flag is what stops the resulting chain.
 */
module Window {
  import opened Wrappers
  import opened Json
  import opened Text
  import opened Catalog
  import opened Payload
  import opened Ptp

  /** The message box an action ends with, when it ends with one. */
  datatype Notice =
    | NoCardSelected      // "No card selected" / "No reference card"
    | InvalidJson         // the payload editor does not hold JSON; nothing saved
    | NotLocated          // the selected card was not found in the catalog
    | Cancelled           // the dialog was cancelled or the deletion not confirmed
    | Raised              // a TypeError escaped while removing the key; nothing saved
    | SavedWithoutPayload // "Payload JSON is invalid and was not saved", then "Card saved"
    | Done                // "Saved", "Card saved", "Card added" or "Card deleted"

  /** `apply_card_to_form`: the form shows the card's four fields. */
  function FormCard(c: Card): CardFields
    reads c
  {
    CardFields(c.cardNumber, c.cardName, c.cardDueDate, c.cardCvv)
  }

  /** The card fields after the user typed `text` into field `i` (number, name, expiry, CVV). */
  function SetCardField(f: CardFields, i: nat, text: string): CardFields
    requires i < 4
  {
    if i == 0 then f.(number := text)
    else if i == 1 then f.(name := text)
    else if i == 2 then f.(dueDate := text)
    else f.(cvv := text)
  }

  /**
   * The payload `update_payload_preview` builds for entry `sel` of the
   * selector (`current_card_country_and_data` supplies the customer); None
   * where it returns early.
   */
  function PreviewOf(cat: Catalog, flat: seq<FlatCard>, sel: int, form: FormState): Option<Json>
    reads if 0 <= sel < |flat| then {flat[sel].card} else {}
  {
    if 0 <= sel < |flat| then
      match CustomerOf(cat, flat[sel].country)
      case None => None
      case Some(customer) => Some(Preview(flat[sel].card.customPayload, StripFields(form.card), form.key, customer))
    else None
  }

  /** The editor after `update_payload_preview`: the preview, or what it held before. */
  function Refreshed(cat: Catalog, flat: seq<FlatCard>, sel: int, form: FormState, editor: PayloadText): PayloadText
    reads if 0 <= sel < |flat| then {flat[sel].card} else {}
  {
    match PreviewOf(cat, flat, sel, form)
    case None => editor
    case Some(p) => Wellformed(p)
  }

  /**
   * For a selected entry of a well-keyed catalog the preview is always
   * built, carries the form's stripped card fields and its key, and reading
   * it back into the form changes nothing but the stripping.
   */
  lemma RefreshedMirrorsForm(cat: Catalog, sel: nat, form: FormState, editor: PayloadText)
    requires WellKeyed(cat) && sel < |Flatten(cat)|
    ensures PreviewOf(cat, Flatten(cat), sel, form).Some?
    ensures var p := PreviewOf(cat, Flatten(cat), sel, form).value;
            Refreshed(cat, Flatten(cat), sel, form, editor) == Wellformed(p)
            && Field(p, "integration_key") == Some(KeyValue(form.key))
            && CardFromPayload(p) == Some(StripFields(form.card))
            && SyncFromPayload(GetJsonData(Wellformed(p)), form) == form.(card := StripFields(form.card))
  {
    Located(cat, sel);
    FlatOfAt(Slots(cat), sel);
    var entry := Flatten(cat)[sel];
    var customer := CustomerOf(cat, entry.country).value;
    PreviewKey(entry.card.customPayload, StripFields(form.card), form.key, customer);
    PreviewCardFields(entry.card.customPayload, StripFields(form.card), form.key, customer);
    PreviewSync(entry.card.customPayload, StripFields(form.card), form.key, customer, form.card);
  }

  /** `self.ptp_combo.currentText()`: the selected profile, or "" when none is. */
  function CurrentProfile(items: seq<string>, index: int): string {
    if 0 <= index < |items| then items[index] else ""
  }

  /** The card type loop of `flatten_cards` for one country. */
  method FlattenCountry(code: string, gs: seq<CardGroup>) returns (cards: seq<FlatCard>)
    ensures cards == FlatOf(CountrySlots(code, gs))
  {
    cards := [];
    for gi := 0 to |gs|
      invariant cards == FlatOf(CountrySlots(code, gs[..gi]))
    {
      var more := FlattenGroup(code, gs[gi]);
      CountryStep(code, gs, gi);
      FlatOfConcat(CountrySlots(code, gs[..gi]), GroupSlots(code, gs[gi]));
      cards := cards + more;
    }
    assert gs[..|gs|] == gs;
  }

  /** The innermost loop of `flatten_cards`: one entry per card of a list. */
  method FlattenGroup(code: string, g: CardGroup) returns (cards: seq<FlatCard>)
    ensures cards == FlatOf(GroupSlots(code, g))
  {
    cards := [];
    for k := 0 to |g.cards|
      invariant cards == FlatOf(GroupSlots(code, g)[..k])
    {
      var card := g.cards[k];
      GroupSlotsSnoc(code, g, k);
      FlatOfSnoc(GroupSlots(code, g)[..k], Slot(CardPath(code, g.cardType, k), card));
      cards := cards + [FlatCard(Display(code, card.description), code, card)];
    }
    assert GroupSlots(code, g)[..|g.cards|] == GroupSlots(code, g);
  }

  /** The card type loop of `_find_card_path` for one country. */
  method FindInCountry(code: string, gs: seq<CardGroup>, target: Card) returns (r: Option<CardPath>)
    ensures r == FirstPath(CountrySlots(code, gs), target)
  {
    for gi := 0 to |gs|
      invariant FirstPath(CountrySlots(code, gs[..gi]), target) == None
    {
      var found := FindInGroup(code, gs[gi], target);
      CountryStep(code, gs, gi);
      FirstPathAppend(CountrySlots(code, gs[..gi]), GroupSlots(code, gs[gi]), target);
      if found.Some? {
        CountryFoundInPrefix(code, gs, gi + 1, target);
        return found;
      }
    }
    assert gs[..|gs|] == gs;
    return None;
  }

  /** The innermost loop of `_find_card_path`: the first position of a list holding `target` itself. */
  method FindInGroup(code: string, g: CardGroup, target: Card) returns (r: Option<CardPath>)
    ensures r == FirstPath(GroupSlots(code, g), target)
  {
    ghost var slots := GroupSlots(code, g);
    for k := 0 to |g.cards|
      invariant FirstPath(slots[..k], target) == None
    {
      ghost var s := Slot(CardPath(code, g.cardType, k), g.cards[k]);
      GroupSlotsSnoc(code, g, k);
      FirstPathAppend(slots[..k], [s], target);
      if g.cards[k] == target {
        assert slots == slots[..k + 1] + slots[k + 1..];
        FirstPathFound(slots[..k + 1], slots[k + 1..], target);
        return Some(CardPath(code, g.cardType, k));
      }
    }
    assert slots[..|g.cards|] == slots;
    return None;
  }

  /** The in-place update of `save_existing_card`: the four fields, and the payload when there is one. */
  method StoreCard(card: Card, fields: CardFields, data: Option<Json>)
    modifies card
    ensures FormCard(card) == fields
    ensures card.customPayload == if data.Some? then data else old(card.customPayload)
  {
    card.cardNumber := fields.number;
    card.cardName := fields.name;
    card.cardDueDate := fields.dueDate;
    card.cardCvv := fields.cvv;
    if data.Some? {
      card.customPayload := data;
    }
  }

  class TesterWindow {
    /** `test_data`, the card catalog. */
    var testData: Catalog
    /** `flat_cards`, one entry per card selector item. */
    var flatCards: seq<FlatCard>
    /** `card_combo.currentIndex()`. */
    var selected: int
    /** The four card fields and the integration key field. */
    var form: FormState
    /** The payload editor's text. */
    var editor: PayloadText
    /** `_syncing`. */
    var syncing: bool
    /** `ptp_list`, the profiles of the PTP file. */
    const ptpList: seq<string>
    /** The items of `ptp_combo` and its current index. */
    var ptpItems: seq<string>
    var ptpIndex: int

    /** The selector shows the catalog, and its index is an entry or none. */
    predicate CardsShown()
      reads this
    {
      WellKeyed(testData) && flatCards == Flatten(testData) && -1 <= selected < |flatCards|
    }

    /** The state between two events: the card selector is current, no update is under way. */
    predicate Valid()
      reads this
    {
      CardsShown() && !syncing && -1 <= ptpIndex < |ptpItems|
    }

    /**
     * What `populate_card_combo` leaves behind, given the form and editor
     * before it: the first entry is selected and shown, or there is none.
     */
    predicate ShowsFirst(formBefore: FormState, editorBefore: PayloadText)
      reads this, if flatCards != [] then {flatCards[0].card} else {}
    {
      CardsShown()
      && selected == (if flatCards == [] then -1 else 0)
      && (flatCards == [] ==> form == formBefore && editor == editorBefore)
      && (flatCards != [] ==>
            form == formBefore.(card := FormCard(flatCards[0].card))
            && editor == Refreshed(testData, flatCards, 0, form, editorBefore))
    }

    /**
     * The window as `__init__` builds it from the loaded catalog, profile
     * list and saved key: the selector is populated, its first card shown,
     * and every profile offered.
     */
    constructor (data: Catalog, profiles: seq<string>, savedKey: string)
      requires WellKeyed(data)
      ensures Valid()
      ensures testData == data && ptpList == profiles && ptpItems == profiles
      ensures ptpIndex == (if profiles == [] then -1 else 0)
      ensures ShowsFirst(FormState(CardFields("", "", "", ""), savedKey), Blank)
    {
      testData := data;
      flatCards := [];
      selected := -1;
      form := FormState(CardFields("", "", "", ""), savedKey);
      editor := Blank;
      syncing := false;
      ptpList := profiles;
      ptpItems := profiles;
      ptpIndex := if profiles == [] then -1 else 0;
      new;
      PopulateCardCombo();
    }

    /** `flatten_cards`: the selector entries, visiting countries, card types and lists in order. */
    method FlattenCards() returns (cards: seq<FlatCard>)
      ensures cards == Flatten(testData)
    {
      var cat := testData;
      cards := [];
      for ci := 0 to |cat|
        invariant cards == FlatOf(Slots(cat[..ci]))
      {
        var more := FlattenCountry(cat[ci].code, cat[ci].debitcard);
        CatalogStep(cat, ci);
        FlatOfConcat(Slots(cat[..ci]), CountrySlots(cat[ci].code, cat[ci].debitcard));
        cards := cards + more;
      }
      assert cat[..|cat|] == cat;
    }

    /** `_find_card_path`: the country, type and position of the first list entry that is `target` itself. */
    method FindCardPath(target: Card) returns (r: Option<CardPath>)
      ensures r == FirstPath(Slots(testData), target)
    {
      var cat := testData;
      for ci := 0 to |cat|
        invariant FirstPath(Slots(cat[..ci]), target) == None
      {
        var found := FindInCountry(cat[ci].code, cat[ci].debitcard, target);
        CatalogStep(cat, ci);
        FirstPathAppend(Slots(cat[..ci]), CountrySlots(cat[ci].code, cat[ci].debitcard), target);
        if found.Some? {
          FoundInPrefix(cat, ci + 1, target);
          return found;
        }
      }
      assert cat[..|cat|] == cat;
      return None;
    }

    /**
     * `populate_card_combo`: rebuild the selector from the catalog. Filling
     * the combo box selects its first entry, whose `currentIndexChanged`
     * shows that card in the form and refreshes the preview.
     */
    method PopulateCardCombo()
      requires WellKeyed(testData) && !syncing && -1 <= ptpIndex < |ptpItems|
      modifies this`flatCards, this`selected, this`form, this`editor, this`syncing
      ensures Valid() && ShowsFirst(old(form), old(editor))
    {
      flatCards := FlattenCards();
      selected := -1;
      if flatCards != [] {
        selected := 0;
        ShowFirstCard();
      }
    }

    /** The non-empty branch of `populate_card_combo`: entry 0 is current, show it and apply its card again. */
    method ShowFirstCard()
      requires CardsShown() && !syncing && selected == 0
      modifies this`form, this`editor, this`syncing
      ensures !syncing && form == old(form).(card := FormCard(flatCards[0].card))
      ensures editor == Refreshed(testData, flatCards, 0, form, old(editor))
    {
      OnCardChanged(0);
      form := form.(card := FormCard(flatCards[0].card));
    }

    /** `on_card_changed`: show entry `idx` in the form and refresh the preview; other indices are ignored. */
    method OnCardChanged(idx: int)
      requires CardsShown()
      modifies this`form, this`editor, this`syncing
      ensures syncing == old(syncing)
      ensures !(0 <= idx < |flatCards|) ==> form == old(form) && editor == old(editor)
      ensures 0 <= idx < |flatCards| ==>
                form == old(form).(card := FormCard(flatCards[idx].card))
                && editor == (if old(syncing) then old(editor) else Refreshed(testData, flatCards, selected, form, old(editor)))
    {
      if 0 <= idx < |flatCards| {
        form := form.(card := FormCard(flatCards[idx].card));
        UpdatePayloadPreview();
      }
    }

    /**
     * `update_payload_preview`: unless an update is under way, put the
     * preview for the selected entry in the editor. Its `textChanged` runs
     * `on_payload_changed` while the flag is set, which then does nothing.
     */
    method UpdatePayloadPreview()
      requires CardsShown()
      modifies this`form, this`editor, this`syncing
      decreases if syncing then 0 else 1, 1
      ensures syncing == old(syncing) && form == old(form)
      ensures editor == if old(syncing) then old(editor) else Refreshed(testData, flatCards, selected, form, old(editor))
    {
      if syncing {
        return;
      }
      var shown := PreviewOf(testData, flatCards, selected, form);
      if shown.None? {
        return;
      }
      syncing := true;
      editor := Wellformed(shown.value);
      OnPayloadChanged();
      syncing := false;
    }

    /**
     * `on_payload_changed`: unless an update is under way, copy the card
     * block and a usable key of the edited JSON into the form. Setting the key
     * field runs `on_api_key_changed` while the flag is set, which then does
     * nothing.
     */
    method OnPayloadChanged()
      requires CardsShown()
      modifies this`form, this`editor, this`syncing
      decreases if syncing then 0 else 1, 0
      ensures syncing == old(syncing) && editor == old(editor)
      ensures form == if old(syncing) then old(form) else SyncFromPayload(GetJsonData(editor), old(form))
    {
      if syncing {
        return;
      }
      var data := GetJsonData(editor);
      if data.None? || !Truthy(data.value) {
        return;
      }
      syncing := true;
      var fields := CardFromPayload(data.value);
      if fields.Some? {
        form := form.(card := fields.value);
      }
      var key := KeyFromPayload(data.value);
      if key.Some? && key.value != form.key {
        form := form.(key := key.value);
        OnApiKeyChanged();
      }
      syncing := false;
    }

    /** `on_api_key_changed`: unless an update is under way, refresh the preview with the new key. */
    method OnApiKeyChanged()
      requires CardsShown()
      modifies this`form, this`editor, this`syncing
      decreases if syncing then 0 else 1, 2
      ensures syncing == old(syncing) && form == old(form)
      ensures editor == if old(syncing) then old(editor) else Refreshed(testData, flatCards, selected, form, old(editor))
    {
      if syncing {
        return;
      }
      UpdatePayloadPreview();
    }

    /** The user picks entry `idx` of the card selector; picking the current one emits no signal. */
    method SelectCard(idx: int)
      requires Valid() && 0 <= idx < |flatCards|
      modifies this`selected, this`form, this`editor, this`syncing
      ensures Valid() && selected == idx
      ensures idx == old(selected) ==> form == old(form) && editor == old(editor)
      ensures idx != old(selected) ==>
                form == old(form).(card := FormCard(flatCards[idx].card))
                && editor == Refreshed(testData, flatCards, idx, form, old(editor))
    {
      if idx != selected {
        selected := idx;
        OnCardChanged(idx);
      }
    }

    /** The user edits card field `i`; `on_card_field_changed` refreshes the preview. */
    method EditCardField(i: nat, text: string)
      requires Valid() && i < 4
      modifies this`form, this`editor, this`syncing
      ensures Valid()
      ensures form == old(form).(card := SetCardField(old(form.card), i, text))
      ensures editor == Refreshed(testData, flatCards, selected, form, old(editor))
    {
      form := form.(card := SetCardField(form.card, i, text));
      if !syncing {
        UpdatePayloadPreview();
      }
    }

    /** The user edits the key field; a changed text runs `on_api_key_changed`. */
    method EditKey(text: string)
      requires Valid()
      modifies this`form, this`editor, this`syncing
      ensures Valid()
      ensures form == old(form).(key := text)
      ensures editor == if text == old(form.key) then old(editor) else Refreshed(testData, flatCards, selected, form, old(editor))
    {
      if text != form.key {
        form := form.(key := text);
        OnApiKeyChanged();
      }
    }

    /** The user edits the payload; `on_payload_changed` copies it into the form. */
    method EditPayload(t: PayloadText)
      requires Valid()
      modifies this`form, this`editor, this`syncing
      ensures Valid()
      ensures editor == t
      ensures form == SyncFromPayload(GetJsonData(t), old(form))
    {
      editor := t;
      OnPayloadChanged();
    }

    /**
     * `save_payload_for_card`: store the editor's JSON, without its
     * `integration_key`, as the selected card's saved payload.
     */
    method SavePayloadForCard() returns (notice: Notice)
      requires Valid()
      modifies if 0 <= selected < |flatCards| then {flatCards[selected].card} else {}
      ensures !(0 <= selected < |flatCards|) ==> notice == NoCardSelected
      ensures 0 <= selected < |flatCards| ==>
                var card := flatCards[selected].card;
                var data := GetJsonData(editor);
                FormCard(card) == old(FormCard(card))
                && (data.None? ==> notice == InvalidJson && card.customPayload == old(card.customPayload))
                && (data.Some? && StripIntegrationKey(data.value).None? ==>
                      notice == Raised && card.customPayload == old(card.customPayload))
                && (data.Some? && StripIntegrationKey(data.value).Some? ==>
                      notice == Done && card.customPayload == StripIntegrationKey(data.value))
    {
      if !(0 <= selected < |flatCards|) {
        return NoCardSelected;
      }
      var card := flatCards[selected].card;
      var data := GetJsonData(editor);
      if data.None? {
        return InvalidJson;
      }
      var stored := StripIntegrationKey(data.value);
      if stored.None? {
        return Raised;
      }
      card.customPayload := stored;
      return Done;
    }

    /**
     * `save_existing_card`: write the stripped form fields and, when the
     * editor holds JSON, the payload into the selected card, then repopulate.
     */
    method SaveExistingCard() returns (notice: Notice)
      requires Valid()
      modifies this`flatCards, this`selected, this`form, this`editor, this`syncing
      modifies if 0 <= selected < |flatCards| then {flatCards[selected].card} else {}
      ensures Valid() && testData == old(testData)
      ensures !(0 <= old(selected) < |old(flatCards)|) ==>
                notice == NoCardSelected && flatCards == old(flatCards) && selected == old(selected)
                && form == old(form) && editor == old(editor)
      ensures 0 <= old(selected) < |old(flatCards)| ==>
                var card := old(flatCards)[old(selected)].card;
                var data := GetJsonData(old(editor));
                FormCard(card) == StripFields(old(form.card))
                && card.customPayload == (if data.Some? then data else old(card.customPayload))
                && notice == (if data.Some? then Done else SavedWithoutPayload)
                && ShowsFirst(old(form), old(editor))
    {
      if !(0 <= selected < |flatCards|) {
        return NoCardSelected;
      }
      var card := flatCards[selected].card;
      var data := GetJsonData(editor);
      StoreCard(card, StripFields(form.card), data);
      notice := if data.Some? then Done else SavedWithoutPayload;
      PopulateCardCombo();
    }

    /**
     * `save_new_card`: add a card made of the stripped form fields, the
     * stripped description and the editor's JSON to the list of the selected
     * card, repopulate, and select the new card.
     */
    method SaveNewCard(desc: string, accepted: bool) returns (notice: Notice, added: Option<Card>)
      requires Valid()
      modifies this`testData, this`flatCards, this`selected, this`form, this`editor, this`syncing
      ensures Valid()
      ensures notice == NoCardSelected <==> !(0 <= old(selected) < |old(flatCards)|)
      ensures notice == Cancelled <==> 0 <= old(selected) < |old(flatCards)| && (!accepted || Strip(desc) == "")
      ensures notice == Done <==> 0 <= old(selected) < |old(flatCards)| && accepted && Strip(desc) != ""
      ensures notice != Done ==>
                added == None && testData == old(testData) && flatCards == old(flatCards)
                && selected == old(selected) && form == old(form) && editor == old(editor)
      ensures notice == Done ==>
                var found := FirstPath(Slots(old(testData)), old(flatCards)[old(selected)].card);
                && found.Some? && added.Some? && fresh(added.value)
                && testData == AppendCard(old(testData), found.value.country, found.value.cardType, added.value)
                && FormCard(added.value) == StripFields(old(form.card))
                && added.value.description == Strip(desc)
                && added.value.customPayload == GetJsonData(old(editor))
                && |flatCards| == |old(flatCards)| + 1
                && 0 <= selected < |flatCards| && flatCards[selected].card == added.value
                && form == old(form).(card := StripFields(old(form.card)))
                && PreviewOf(testData, flatCards, selected, form).Some?
                && editor == Wellformed(PreviewOf(testData, flatCards, selected, form).value)
    {
      if !(0 <= selected < |flatCards|) {
        return NoCardSelected, None;
      }
      var reference := flatCards[selected].card;
      ListedCardFound(testData, selected);
      var path := FindCardPath(reference);
      if path.None? {
        return NotLocated, None;
      }
      if !accepted || Strip(desc) == "" {
        return Cancelled, None;
      }
      FoundPathLocated(testData, reference);
      var card := AddNewCard(path.value, desc);
      return Done, Some(card);
    }

    /**
     * The dict `save_new_card` builds from the stripped form fields, the
     * stripped description and the editor's JSON, added under `p` and selected.
     */
    method AddNewCard(p: CardPath, desc: string) returns (card: Card)
      requires Valid() && FindCountry(testData, p.country).Some?
      modifies this`testData, this`flatCards, this`selected, this`form, this`editor, this`syncing
      ensures Valid() && fresh(card)
      ensures testData == AppendCard(old(testData), p.country, p.cardType, card)
      ensures FormCard(card) == StripFields(old(form.card))
      ensures card.description == Strip(desc) && card.customPayload == GetJsonData(old(editor))
      ensures |flatCards| == |old(flatCards)| + 1
      ensures 0 <= selected < |flatCards| && flatCards[selected].card == card
      ensures form == old(form).(card := StripFields(old(form.card)))
      ensures PreviewOf(testData, flatCards, selected, form).Some?
      ensures editor == Wellformed(PreviewOf(testData, flatCards, selected, form).value)
    {
      var fields := StripFields(form.card);
      card := new Card(fields.number, fields.name, fields.dueDate, fields.cvv, Strip(desc), GetJsonData(editor));
      AddCard(p, card);
    }

    /**
     * The rest of `save_new_card` once the reference card's path `p` is
     * known: append the new card to that list, repopulate, and select the
     * entry of the new card itself.
     */
    method AddCard(p: CardPath, card: Card)
      requires Valid() && FindCountry(testData, p.country).Some?
      modifies this`testData, this`flatCards, this`selected, this`form, this`editor, this`syncing
      ensures Valid()
      ensures testData == AppendCard(old(testData), p.country, p.cardType, card)
      ensures |flatCards| == |old(flatCards)| + 1
      ensures 0 <= selected < |flatCards| && flatCards[selected].card == card
      ensures form == old(form).(card := FormCard(card))
      ensures PreviewOf(testData, flatCards, selected, form).Some?
      ensures editor == Wellformed(PreviewOf(testData, flatCards, selected, form).value)
    {
      InsertCard(p, card);
      var idx := EntryOf(flatCards, card);
      SelectCard(idx);
      RefreshedMirrorsForm(testData, selected, form, editor);
    }

    /** Appending `card` under `p` and repopulating; the new card is among the entries. */
    method InsertCard(p: CardPath, card: Card)
      requires Valid() && FindCountry(testData, p.country).Some?
      modifies this`testData, this`flatCards, this`selected, this`form, this`editor, this`syncing
      ensures Valid() && ShowsFirst(old(form), old(editor))
      ensures testData == AppendCard(old(testData), p.country, p.cardType, card)
      ensures |flatCards| == |old(flatCards)| + 1
      ensures 0 <= EntryOf(flatCards, card)
    {
      AddedCardShown(testData, p, card);
      testData := AppendCard(testData, p.country, p.cardType, card);
      ghost var flat := Flatten(testData);
      assert 0 <= EntryOf(flat, card);
      PopulateCardCombo();
      assert flatCards == flat;
    }

    /**
     * `delete_current_card`: after confirmation, remove the selected card
     * from the list it was found in (and the list's key once it is empty),
     * then repopulate.
     */
    method DeleteCurrentCard(confirmed: bool) returns (notice: Notice)
      requires Valid()
      modifies this`testData, this`flatCards, this`selected, this`form, this`editor, this`syncing
      ensures Valid()
      ensures notice == NoCardSelected <==> !(0 <= old(selected) < |old(flatCards)|)
      ensures notice == Cancelled <==> 0 <= old(selected) < |old(flatCards)| && !confirmed
      ensures notice == Done <==> 0 <= old(selected) < |old(flatCards)| && confirmed
      ensures notice != Done ==>
                testData == old(testData) && flatCards == old(flatCards)
                && selected == old(selected) && form == old(form) && editor == old(editor)
      ensures notice == Done ==>
                var found := FirstPath(Slots(old(testData)), old(flatCards)[old(selected)].card);
                && found.Some?
                && testData == DeleteCard(old(testData), found.value)
                && |flatCards| + 1 == |old(flatCards)|
                && ShowsFirst(old(form), old(editor))
    {
      if !(0 <= selected < |flatCards|) {
        return NoCardSelected;
      }
      var target := flatCards[selected].card;
      ListedCardFound(testData, selected);
      if !confirmed {
        return Cancelled;
      }
      var path := FindCardPath(target);
      if path.None? {
        return NotLocated;
      }
      RemoveCard(target, path.value);
      return Done;
    }

    /** Deleting the card at `p`, the path `target` was found at, and repopulating. */
    method RemoveCard(target: Card, p: CardPath)
      requires Valid() && FirstPath(Slots(testData), target) == Some(p)
      modifies this`testData, this`flatCards, this`selected, this`form, this`editor, this`syncing
      ensures Valid() && ShowsFirst(old(form), old(editor))
      ensures testData == DeleteCard(old(testData), p)
      ensures |flatCards| + 1 == |old(flatCards)|
    {
      DeletedCardGone(testData, target);
      testData := DeleteCard(testData, p);
      PopulateCardCombo();
    }

    /**
     * `update_ptp_filter`: offer the profiles matching the filter text, and
     * keep the profile chosen before when it is still offered.
     */
    method UpdatePtpFilter(text: string)
      requires Valid()
      modifies this`ptpItems, this`ptpIndex
      ensures Valid()
      ensures ptpItems == Keep(ptpList, Needle(text))
      ensures ptpIndex == Reselect(ptpItems, CurrentProfile(old(ptpItems), old(ptpIndex)))
    {
      var current := CurrentProfile(ptpItems, ptpIndex);
      var needle := Needle(text);
      FilterIsKeep(ptpList, needle);
      ptpItems := if needle != "" then Keep(ptpList, needle) else ptpList;
      ptpIndex := Reselect(ptpItems, current);
    }
  }
}
