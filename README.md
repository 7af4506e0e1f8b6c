# eb-tester `TesterWindow` core, modelled in Dafny

The eb-tester Qt window is used to try EBANX payment type profiles (PTPs).
It works on a catalog of test cards grouped by country and card type.
It keeps a card form, an integration key field and a JSON payload editor in step, and it shows a cURL command and the HTTP status of each call.
This project models the logic under the widgets of `TesterWindow` in `qt_gui.py` and proves what it promises:

- **Card catalog.** The catalog (`test_data`) is a value: countries, each with customer defaults and card type lists in dict order. Card records are objects of `class Card`, because the window edits them in place and finds them by identity (`is`).
  - Files: `catalog.dfy` for the traversal, lookup, append and delete; `window.dfy` for the loops of `flatten_cards` and `_find_card_path`.
- **Payload.** JSON values are a datatype whose objects keep key order (`json.dfy`). `payload.dfy` builds the payload (`build_payload`), overlays a saved `custom_payload` (`update_payload_preview`) and reads the editor back into the form (`on_payload_changed`).
- **Window.** `class TesterWindow` (`window.dfy`) holds the catalog, the selector list, the form, the editor text, the `_syncing` flag and the PTP combo. Each event handler is a method.
  - A programmatic `setText` fires its connected handler at once, as a Qt signal does. The preview → sync → key → preview cascade is therefore modelled as real nested calls, and the `_syncing` flag stops it.
- **Small functions.**
  - `ptp.dfy`: the PTP filter and its reselection rule.
  - `curl.dfy`: compact `json.dumps`, single-quote escaping, and a POSIX-shell reading of a quoted word that proves the escaping round-trips.
  - `status.dfy`: the HTTP status classification.
  - `text.dfy`: `strip`, `lower`, substring and `str()`.

Dialogs and message boxes become parameters and results:
- the description dialog of `save_new_card` is `desc, accepted`;
- the confirmation of `delete_current_card` is `confirmed`;
- the message box an action ends with is a `Notice`.

## Model

| member | source | states |
|---|---|---|
| Window.TesterWindow.FlattenCards | qt_gui.py:599-606 | The loop over countries yields exactly `Flatten(testData)`: one entry per card, in country → type → list order. |
| Window.FlattenCountry | qt_gui.py:602-605 | The card type loop of one country yields the entries of that country's lists in order. |
| Window.FlattenGroup | qt_gui.py:603-605 | The innermost loop yields one `country – description` entry per card of the list, in list order. |
| Catalog.FlattenCount | qt_gui.py:599-606 | The length of the selector list is the sum of all card list lengths. |
| Catalog.SlotsCount | qt_gui.py:601-603 | The traversal visits exactly as many cards as the lists hold. |
| Catalog.FlattenAt | qt_gui.py:601-605 | Card `k` of type `gi` of country `ci` is the entry at its country → type → list offset. Its label is `country – description`, with that country and that card. |
| Catalog.SlotsAt | qt_gui.py:601-603 | Card `k` of group `gi` of country `ci` is visited at position `Offset + k` with path `(country, type, k)`. |
| Catalog.SlotOrigin | qt_gui.py:601-603 | Every visited entry is some card of some list, reached by its own path. |
| Catalog.Located | qt_gui.py:601-603 | In a well-keyed catalog, following an entry's path by key (`test_data[c]["debitcard"][t][i]`) leads back to that very card. |
| Window.TesterWindow.FindCardPath | qt_gui.py:969-978 | The search returns exactly `FirstPath(Slots(testData), target)`: the path of the first entry that is the target itself, or none. |
| Window.FindInCountry | qt_gui.py:973-977 | The card type loop of one country returns the first path of the target in that country, or none. |
| Window.FindInGroup | qt_gui.py:975-977 | The innermost loop returns the first index of the list holding the target object, or none. |
| Catalog.FirstPathSpec | qt_gui.py:969-978 | The search finds nothing exactly when no entry is the target. Otherwise it returns the path of the first entry that is. |
| Catalog.FoundPathLocated | qt_gui.py:969-978 | A found path leads, key by key, to the target: the country exists, the list exists, and the index holds the target. |
| Catalog.ListedCardFound | qt_gui.py:1022-1024 | Every card in the selector list is found by `_find_card_path`, so the "could not determine/locate" branches cannot happen for a listed card. |
| Catalog.FindCountry | qt_gui.py:1047 | Returns the first position of the country code, or none exactly when no entry has that code. |
| Catalog.FindGroup | qt_gui.py:1047 | Returns the first position of the card type, or none exactly when no group has that type. |
| Catalog.AppendCardCount | qt_gui.py:1047 | Appending to an existing country raises the card count by exactly one. |
| Catalog.AppendCardLists | qt_gui.py:1047 | After `setdefault(t, []).append(card)`, that list is the old list (or an empty one) with the card last. Every other list and every customer is unchanged. |
| Catalog.AppendCardWellKeyed | qt_gui.py:1047 | Appending keeps country codes and card types unique. |
| Catalog.AppendedCardListed | qt_gui.py:1047-1050 | The appended card appears in the refreshed selector list, labelled with its country and description. |
| Catalog.AddedCardShown | qt_gui.py:1047-1050 | After the append, the catalog stays well keyed, the selector list grows by one and contains the new card. |
| Catalog.EntryOf | qt_gui.py:1051-1052 | Returns the first selector entry showing the card itself, or -1 exactly when none does. |
| Catalog.LastEntryMissesNewCard | qt_gui.py:1051-1052 | For a two-country catalog whose first country receives the card, the last selector entry is not the new card. |
| Window.TesterWindow.SaveNewCard | qt_gui.py:1017-1052 | No selection gives NoCardSelected. A cancelled or blank description gives Cancelled. Both leave every field alone. The card is added (Done) exactly when a card is selected, the dialog is accepted and the description is not blank, since a listed card is always located. Then a fresh card of the stripped form fields, the stripped description and the editor's JSON is appended to the reference card's list; the selector grows by one; the new card itself is selected, shown and previewed. |
| Window.TesterWindow.AddNewCard | qt_gui.py:1034-1052 | The new card holds the stripped form fields, the stripped description and the editor's JSON. It is appended under the reference path, and it is selected, shown and previewed. |
| Window.TesterWindow.AddCard | qt_gui.py:1047-1052 | Appends under the reference path, repopulates, and selects the new card's own entry. The form shows the card and the editor its preview. |
| Window.TesterWindow.InsertCard | qt_gui.py:1047-1050 | Appends under the reference path and repopulates. The new card is among the entries. |
| Catalog.DeleteCardCount | qt_gui.py:1068-1071 | Deleting the card at a valid path lowers the card count by exactly one. |
| Catalog.DeleteCardLists | qt_gui.py:1068-1071 | The located list loses exactly entry `index`, and its type key disappears when the list becomes empty. Every other list and every customer is unchanged. |
| Catalog.DeleteCardWellKeyed | qt_gui.py:1068-1071 | Deleting keeps country codes and card types unique. |
| Catalog.DeletedCardGone | qt_gui.py:1064-1074 | Deleting the card found by identity keeps the catalog well keyed and shortens the selector list by one. |
| Window.TesterWindow.DeleteCurrentCard | qt_gui.py:1054-1074 | No selection gives NoCardSelected; no confirmation gives Cancelled; neither changes anything. The card is deleted (Done) exactly when a card is selected and the deletion confirmed, since a listed card is always located. Then the card found by `_find_card_path` is deleted with the empty-list rule, and the selector shrinks by one and is repopulated. |
| Window.TesterWindow.RemoveCard | qt_gui.py:1068-1074 | Deletes at the found path and repopulates. The selector is one entry shorter. |
| Window.TesterWindow.SaveExistingCard | qt_gui.py:992-1015 | Without a selection nothing changes. Otherwise the selected card gets the four stripped form fields, and the editor's JSON when there is some (else it keeps its payload and the notice is SavedWithoutPayload). The catalog structure is unchanged and the selector is repopulated. |
| Window.StoreCard | qt_gui.py:1000-1010 | The card's four fields become the given ones. Its payload becomes the given JSON when there is one and is kept otherwise. |
| Window.TesterWindow.PopulateCardCombo | qt_gui.py:611-617 | The selector is `Flatten(testData)`. Its first entry, if any, is selected and shown in the form, and its preview is in the editor. With no entries, form and editor are unchanged. |
| Window.TesterWindow.ShowFirstCard | qt_gui.py:615-617 | Entry 0 is shown in the form and previewed in the editor, and the flag is down. |
| Window.TesterWindow.constructor | qt_gui.py:434-566 | The window starts from the loaded catalog, the profile list and the saved key. It is validly populated with its first card shown, and every profile is offered with the first selected. |
| Window.TesterWindow.OnCardChanged | qt_gui.py:619-623 | An index out of range changes nothing. Otherwise the form shows that card and the editor its preview. |
| Window.TesterWindow.SelectCard | qt_gui.py:619-623 | Picking the current entry emits nothing. Picking another shows it and previews it. |
| Window.TesterWindow.UpdatePayloadPreview | qt_gui.py:639-681 | While syncing, nothing changes. With no selected card, nothing changes. Otherwise the editor holds `Preview(...)` of the selected card, the form is untouched and the flag ends as it began. |
| Window.TesterWindow.OnPayloadChanged | qt_gui.py:699-731 | While syncing, nothing changes. Otherwise the form becomes `SyncFromPayload(get_json_data, form)`, the editor is untouched and the flag ends down. |
| Window.TesterWindow.OnApiKeyChanged | qt_gui.py:692-697 | While syncing, nothing changes. Otherwise the preview is refreshed with the new key. |
| Window.TesterWindow.EditCardField | qt_gui.py:686-690 | Typing into a card field changes exactly that field, and the editor shows the refreshed preview. |
| Window.TesterWindow.EditKey | qt_gui.py:692-697 | A changed key text updates the key and refreshes the preview. The same text emits nothing. |
| Window.TesterWindow.EditPayload | qt_gui.py:699-731 | Editing the payload puts the text in the editor and syncs the form from it. |
| Window.RefreshedMirrorsForm | qt_gui.py:653-681 | For any selected entry of a well-keyed catalog, the preview is built. It carries the UI key and the stripped form fields, and reading it back only strips the form's fields. |
| Window.TesterWindow.SavePayloadForCard | qt_gui.py:786-805 | Without a selection: NoCardSelected. Without JSON: InvalidJson, nothing stored. When removing the key raises: Raised, nothing stored. Otherwise the card stores the JSON without `integration_key`, and its fields are untouched. |
| Payload.StripIntegrationKeyObject | qt_gui.py:798-803 | The stored object has no `integration_key` and every other key as before. |
| Payload.BuildPayloadTop | qt_gui.py:747-750 | `integration_key` is the key text, or `"{integration_key}"` when the text is empty; `operation` is `"request"`. |
| Payload.BuildPayloadCustomer | qt_gui.py:751-758 | The seven other `payment` fields are the customer record's values. |
| Payload.BuildPayloadCard | qt_gui.py:759-766 | `payment.card` holds the four given card fields, `auto_capture = true` and `threeds_force = false`. |
| Payload.OverlayWhenStructured | qt_gui.py:666-676 | The saved payload is overlaid exactly when its `payment.card` is an object; otherwise the preview is rebuilt. |
| Payload.OverlayTop | qt_gui.py:669-671 | At the top level the overlay sets `integration_key` to the UI key and keeps every other key except `payment` unchanged, with the existing keys in order. |
| Payload.OverlayPayment | qt_gui.py:669 | Inside `payment`, every key except `card` is unchanged. |
| Payload.OverlayCard | qt_gui.py:658-669 | Inside `payment.card`, the four form fields are written and every other key is kept. |
| Payload.PatchCardGet | qt_gui.py:669 | `card.update(ui_card)` reads the form fields under the four card keys, every other key as before, and keeps the old keys. |
| Payload.PreviewKey | qt_gui.py:666-676 | With or without a saved payload, the preview's `integration_key` is the UI key or the placeholder. |
| Payload.PreviewCard | qt_gui.py:657-676 | With or without a saved payload, the preview's `payment.card` holds the four form fields. |
| Payload.PreviewCardFields | qt_gui.py:719-721 | Reading the four card fields back from a preview gives the fields it was built from. |
| Payload.PreviewSyncRoundTrip | qt_gui.py:657-731 | Preview then sync gives the stripped form card fields and leaves the key field as it was. |
| Payload.PreviewSync | qt_gui.py:711-731 | Syncing from a preview built from `f` puts `f` in the card fields and keeps the key. |
| Payload.SyncIdempotent | qt_gui.py:711-731 | Syncing twice from the same data gives what syncing once does. |
| Payload.PreviewAsWrittenAgrees | qt_gui.py:666-676 | The preview as written fails exactly when the saved `payment.card` exists but is not an object. Elsewhere it equals the corrected preview. |
| Payload.PreviewAsWrittenFails | qt_gui.py:666-676 | `{"payment": {"card": null}}` leaves the preview stale as written, where the corrected preview falls back to `build_payload`. |
| Payload.SyncAsWrittenAgrees | qt_gui.py:711-731 | As written, the flag stays raised exactly when an exception escapes (a non-object card, or the key test on a number, boolean, or list or string holding "integration_key"). Otherwise the form is `SyncFromPayload`'s. |
| Payload.SyncAsWrittenStuckOnNumber | qt_gui.py:711-731 | Typing `1` into the editor leaves the flag raised as written. The corrected sync leaves the form unchanged. |
| Json.GetUnique | qt_gui.py:719-721 | In an object with unique keys, each member is what its key reads. |
| Json.GetUpdate | qt_gui.py:669 | After `d.update(ps)` with distinct keys in `ps`, a key reads from `ps` if it is there and from `d` otherwise. |
| Json.KeysUpdate | qt_gui.py:669 | `d.update(ps)` keeps the keys of `d` in place and only appends. |
| Json.GetPut | qt_gui.py:671 | After `d[k] = v`, `k` reads `v` and every other key reads as before. |
| Json.KeysPut | qt_gui.py:671 | `d[k] = v` keeps an existing key in place and appends a new one. |
| Json.GetRemove | qt_gui.py:800-801 | After `del d[k]`, `k` is missing and every other key reads as before. |
| Text.StripTrims | qt_gui.py:659-662 | The stripped text is a piece of the input with only whitespace around it. |
| Text.StripEnds | qt_gui.py:659-662 | The stripped text neither starts nor ends with whitespace. |
| Text.StripIdempotent | qt_gui.py:940 | Stripping twice is stripping once. |
| Text.ContainsIff | qt_gui.py:945 | `needle in s` holds exactly when the needle occurs at some position of `s`. |
| Window.TesterWindow.UpdatePtpFilter | qt_gui.py:938-954 | The offered items are `Keep(ptp_list, strip(text).lower())`. The index is `Reselect` of the profile offered before. |
| Ptp.KeepMembers | qt_gui.py:945 | A profile is offered exactly when it is in the list and its lower-cased name contains the filter. |
| Ptp.KeepOrdered | qt_gui.py:945 | The offered profiles keep the order of the profile file. |
| Ptp.KeepCount | qt_gui.py:945 | A matching profile is offered as many times as the file lists it, and a non-matching one not at all. |
| Ptp.KeepEmptyNeedle | qt_gui.py:944-947 | An empty filter offers the whole list. |
| Ptp.FilterIsKeep | qt_gui.py:944-947 | Both branches of the `if text` give the comprehension. |
| Ptp.KeepIdempotent | qt_gui.py:945 | Filtering again by the same needle changes nothing. |
| Ptp.Reselect | qt_gui.py:951-954 | A previous profile still offered is selected at its first position. Otherwise the first item is selected, or none when nothing is offered. |
| Curl.EscapeSingleQuotesPlain | qt_gui.py:776 | Text without a single quote is left unchanged. |
| Curl.EscapeSingleQuotesConcat | qt_gui.py:776 | The replacement works character by character: escaping a concatenation is concatenating the escapes. |
| Curl.RunEscaped | qt_gui.py:776 | Inside single quotes, the escaped text reads back as the original. |
| Curl.QuoteEscapeRead | qt_gui.py:776 | `'"'"'` read inside single quotes adds one `'` and leaves the quote open. |
| Curl.QuotedRoundTrip | qt_gui.py:776-782 | A POSIX shell reads `'` + escape(s) + `'` back as exactly `s`. |
| Curl.DumpsPrintable | qt_gui.py:774 | The compact dump with ASCII escapes is printable ASCII only. |
| Curl.CurlDataArgument | qt_gui.py:770-784 | The command's last argument reads back under shell quoting as the compact JSON of the payload, and contains no line break. |
| Status.Classify | qt_gui.py:898-909 | 200–299 is Success, 400–499 is Client Error, 500 and above is Server Error, and anything else is Other Status. Each holds in both directions. |
| Status.LabelInjective | qt_gui.py:898-909 | Different classes get different labels. |
| Status.StatusTextLabel | qt_gui.py:897-909 | The status text ends with exactly the label of the code's class. |

## Left out

- Qt widgets, layouts, `JSONHighlighter`, and the `blockSignals` calls. Only the state they hold and the signals the handlers rely on are modelled.
- `APICallWorker`, the `QThread` wiring and `run_test`: HTTP over the network and threads. `_handle_api_response` is modelled only in its status branch; the response body display is presentation.
- Logging, `_persist_settings`, `save_config`/`load_config`, `load_json`, `load_lines` and `_write_cards_file`. These are file I/O. The catalog, the profile list and the saved key come in as constructor parameters, and a failed write is not modelled.
- The dialogs `QInputDialog.getText` and `QMessageBox.question`. They are parameters (`desc`, `accepted`, `confirmed`). The other message boxes are the returned `Notice`.
- JSON text: the pretty-printing of `set_json_text` and the parsing of `json.loads`. The editor text is `Blank`, `Malformed` or `Wellformed(value)`, and `Payload.GetJsonData` maps that abstraction to the result of `get_json_data`: stripping, the blank check and `JSONDecodeError` are folded into `Blank` and `Malformed`, and JSON `null` gives None too. Floating-point JSON numbers are not modelled.
- Text.Lower: only ASCII letters are lower-cased; Python's full Unicode case mapping is not modelled.
- Text.Str: `repr` of strings inside containers uses quote and backslash escapes, but not Python's escaping of every non-printable character.
- Payload.BuildPayload: a missing `customer_data` field raises KeyError in the source. The model's customer record always has all seven fields.
- `format_payload_json`, `clear_response` and `reload_cards_from_disk`: re-formatting text, clearing a view, and reading a file, with no state of the core involved.
- Window.TesterWindow.SaveNewCard: selects the new card's own entry (`EntryOf`), not the last index of qt_gui.py:1052. It models the corrected behaviour of the third "## Findings" row.
- Window.TesterWindow.AddCard: selects the entry of the new card, the corrected behaviour of the third "## Findings" row, not the last index.
- Window.TesterWindow.UpdatePayloadPreview: writes the corrected `Payload.Preview`, which falls back to `build_payload` when `payment.card` is not an object. As written, qt_gui.py:669 raises AttributeError there and the editor keeps stale text (first "## Findings" row).
- Window.TesterWindow.OnPayloadChanged: uses the corrected `Payload.SyncFromPayload`, after which the flag is always down. As written, an AttributeError or TypeError can leave `_syncing` raised (second "## Findings" row). The handlers that reach the preview or the sync through these two (`OnCardChanged`, `OnApiKeyChanged`, `SelectCard`, `EditCardField`, `EditKey`, `EditPayload`, `PopulateCardCombo`) inherit the same correction.
- Window.TesterWindow.SaveExistingCard: it stores the editor's JSON with `integration_key` in it, as the source does, and unlike `save_payload_for_card`.
- Window.TesterWindow.constructor: it fills the PTP combo before populating the card selector, whereas the source does so after. The two touch disjoint state, so the final state is the same.
- Window.TesterWindow.FlattenCards and Window.TesterWindow.FindCardPath: their nested loops are split into one method per level (`FlattenCountry`/`FlattenGroup`, `FindInCountry`/`FindInGroup`), with the same visiting order and early return.

## Findings

| source | as written | input that shows it | evidently intended | confidence | as-written member | corrected member |
|---|---|---|---|---|---|---|
| qt_gui.py:666-674 | `payload["payment"]["card"].update(ui_card)` raises AttributeError when `payment.card` is not a dict. Only KeyError and TypeError are caught, so the preview is not rebuilt and the editor keeps stale text. | a saved `custom_payload` of `{"payment": {"card": null}}` | fall back to `build_payload` whenever the structure is unexpected, as the comment on the `except` says | not executed | Payload.PreviewAsWritten, Payload.PreviewAsWrittenFails | Payload.Preview, Payload.PreviewAsWrittenAgrees |
| qt_gui.py:715-731 | after `self._syncing = True`, an AttributeError (`.get` on a non-dict `payment.card`) or a TypeError outside the `try` (`"integration_key" in data` with `data` a number or boolean) escapes before `self._syncing = False`. The flag stays raised, and every later preview and sync is skipped | typing `1` into the payload editor | the flag returns to false whatever the payload holds | not executed | Payload.SyncAsWritten, Payload.SyncAsWrittenStuckOnNumber | Payload.SyncFromPayload, Payload.SyncAsWrittenAgrees |
| qt_gui.py:1050-1052 | after repopulating, the last combo index is selected, which is the new card only when its country and type list come last in the selector | a catalog of two countries where the card is added to the first | select the entry of the new card | not executed | Catalog.LastEntry, Catalog.LastEntryMissesNewCard | Catalog.EntryOf, Window.TesterWindow.AddCard |
