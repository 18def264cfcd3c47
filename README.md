# Lisu keyboard input logic, modelled in Dafny

This project models the input logic of the Lisu soft keyboard, an Android input-method service. It covers both versions of the service:

- `MainKeyboard` is built on the platform `KeyboardView`. It shows the active page by attaching that page's keyboard to the view.
- `CustomMainKeyboard` is built on its own `CustomInputMethodView`. It keeps the active page in a field.

The model covers these parts of the service:

- **Key dispatch.** The `when (primaryCode)` chain of `onKey` is a list of arms. The first arm whose code matches decides the branch.
- **The actions.** The branches are selection-aware delete, the page keys, the two compound keys, the input-method picker and Enter. The `else` branch commits the code's low 16 bits as one UTF-16 unit, as `Int.toChar()` does.
- **The page state machine.** The pages are NORMAL, SHIFT and SYMBOL. A page key sets the page and returns. Every other key, including delete, Enter and the picker, then turns SHIFT back into NORMAL. This makes SHIFT one-shot and SYMBOL sticky.
- **The click sound** each key plays.
- **The cyclic language index** `((idx + direction) + n) % n`, with Kotlin's truncating `%`.
- **The `currentLanguageIdx` setter** of `MainKeyboard`. It rebuilds the three keyboards and shows the NORMAL one.
- **`loadLanguages`.** It reads the `languages` array into four parallel lists. `CustomMainKeyboard` also builds a keyboard set per language. The first incomplete entry throws.

The editor behind `currentInputConnection` is a value. It holds the text as UTF-16 units and a selection. Its three operations follow the documented `InputConnection` contract for a call that succeeds:

- `getSelectedText(0)` returns null or the selected units.
- `deleteSurroundingText(1, 0)` removes the unit before the selection.
- `commitText(text, newCursorPosition)` replaces the selection. A positive `newCursorPosition` puts the cursor `newCursorPosition - 1` units after the inserted text; any other value puts it that many units from the text's start. The cursor is clamped to the text.

Four behaviours of the code are easy to expect otherwise. The model follows the code in each:

- SHIFT is not consumed only by a character commit. Delete, Enter and the picker also turn SHIFT back to NORMAL, because only the page keys `return` before the revert.
- A language switch does not always reset the page. `CustomMainKeyboard.changeLanguage` leaves the page as it was. `MainKeyboard`'s `currentLanguageIdx` setter does show the NORMAL keyboard.
- The language key does not switch the keyboard's own language: it opens the system input-method picker. The internal language changes through other routes: the keyboard-change swipe in `CustomMainKeyboard`, and the view's language-selection listener (`onLanguageSelected`) in `MainKeyboard`.
- A failed load is not all-or-nothing. The entries appended before the failing one stay in the lists when the exception is thrown.

Modules:

- `Wrappers`: `Option` and `Result`.
- `KeyCodes`: the fixed and loaded key codes, `toChar`.
- `Feedback`: `playClick`.
- `Dispatch`: the `when` chains and their classification.
- `TextField`: the editor.
- `KeyEffects`: the effect of an action on the page and on the editor.
- `LanguageIndex`: `changeLanguage`'s arithmetic.
- `LanguageCatalog`: `loadLanguages` as a function.
- `MainKeyboardService` and `CustomMainKeyboardService`: the two services as classes.

Each class's methods are proved against the functions above.

## Model

| member | source | states |
|---|---|---|
| KeyCodes.ToChar | app/src/main/java/com/amosgwa/lisukeyboard/MainKeyboard.kt:219-221 | `toChar()` gives a UTF-16 unit congruent to the code modulo 2^16; a code already in 0..0xFFFF is kept as is |
| KeyCodes.ToCharUnique | app/src/main/java/com/amosgwa/lisukeyboard/MainKeyboard.kt:219-221 | the unit `toChar()` gives is the only unit congruent to the code modulo 2^16, i.e. its low 16 bits |
| Feedback.ClassifyClick | app/src/main/java/com/amosgwa/lisukeyboard/MainKeyboard.kt:231-239 | space (32) gets the spacebar sound, DONE or 10 the return sound, DELETE the delete sound, and exactly every other code the standard sound (each an if-and-only-if) |
| Dispatch.MainArms | app/src/main/java/com/amosgwa/lisukeyboard/MainKeyboard.kt:163-222 | the `when` conditions of MainKeyboard.onKey in source order: the custom chain with the KEYCODE_123 arm written twice (arms 4 and 5); `DuplicateSymbolArmUnreachable` and `VersionsClassifyAlike` show the repeat changes nothing |
| Dispatch.CustomArms | app/src/main/java/com/amosgwa/lisukeyboard/CustomMainKeyboard.kt:159-209 | the `when` conditions of CustomMainKeyboard.onKey in source order: DELETE first, each branch once; `CustomArmsTestKnownCodes` shows the codes tested are exactly the known codes |
| Dispatch.CustomArmsTestKnownCodes | app/src/main/java/com/amosgwa/lisukeyboard/CustomMainKeyboard.kt:159-209 | the codes the custom chain tests are exactly DELETE, ABC, SHIFT, UNSHIFT, 123, the two compound codes, LANGUAGE and DONE |
| Dispatch.FirstMatch | app/src/main/java/com/amosgwa/lisukeyboard/MainKeyboard.kt:163-222 | the arm `when` takes tests the key's code and no earlier arm does; the `else` position is reached only when no arm matches |
| Dispatch.Select | app/src/main/java/com/amosgwa/lisukeyboard/MainKeyboard.kt:163-222 | the `else` branch is taken if and only if no arm's code equals the key; a chosen branch belongs to an arm testing that code |
| Dispatch.ActionOf | app/src/main/java/com/amosgwa/lisukeyboard/MainKeyboard.kt:164-221 | the branch bodies: only `else` commits a literal, and it is `toChar(code)`; exactly the four page branches change the page; exactly the two compound branches commit a pair, ending with MYA_NA; the per-key lemmas below fix each branch |
| Dispatch.Classify | app/src/main/java/com/amosgwa/lisukeyboard/MainKeyboard.kt:163-222 | a key commits `toChar(code)` exactly when no arm tests its code; otherwise it gets the action of the first arm that tests it |
| Dispatch.FirstMatchUnique | app/src/main/java/com/amosgwa/lisukeyboard/MainKeyboard.kt:163-222 | the first match is unique: any position with both first-match properties is the one `when` takes |
| Dispatch.ShadowedArmIsDead | app/src/main/java/com/amosgwa/lisukeyboard/MainKeyboard.kt:191-200 | an arm whose code an earlier arm tests is never taken, and deleting it changes no key's branch |
| Dispatch.DuplicateSymbolArmUnreachable | app/src/main/java/com/amosgwa/lisukeyboard/MainKeyboard.kt:191-200 | the second `KEYCODE_123` arm of MainKeyboard.onKey is dead code for every key code |
| Dispatch.VersionsClassifyAlike | app/src/main/java/com/amosgwa/lisukeyboard/CustomMainKeyboard.kt:159-209 | MainKeyboard's chain (with the duplicate arm) and CustomMainKeyboard's chain give every key code the same action |
| Dispatch.DeleteKeyClassification | app/src/main/java/com/amosgwa/lisukeyboard/CustomMainKeyboard.kt:160-171 | a key deletes if and only if its code is KEYCODE_DELETE |
| Dispatch.PageKeysClassification | app/src/main/java/com/amosgwa/lisukeyboard/CustomMainKeyboard.kt:172-187 | ABC and UNSHIFT select NORMAL, SHIFT selects SHIFT and 123 selects SYMBOL, each unless an earlier arm has the same code; no other code changes the page |
| Dispatch.CompoundKeysClassification | app/src/main/java/com/amosgwa/lisukeyboard/CustomMainKeyboard.kt:188-195 | the two compound keys commit (MYA_TI, MYA_NA) and (NA_PO, MYA_NA) as `toChar` units unless an earlier arm claims the code; only these codes commit a pair, and MYA_NA is always second |
| Dispatch.PickerAndDoneClassification | app/src/main/java/com/amosgwa/lisukeyboard/CustomMainKeyboard.kt:196-205 | the language key opens the input-method picker and DONE sends Enter, each unless an earlier arm claims the code; no other code does either |
| Dispatch.FallbackClassification | app/src/main/java/com/amosgwa/lisukeyboard/CustomMainKeyboard.kt:206-208 | a key commits a literal if and only if no arm tests its code; the literal is the code's `toChar` unit, which is the code itself for 0..0xFFFF |
| TextField.SelectedTextReportsSelection | app/src/main/java/com/amosgwa/lisukeyboard/MainKeyboard.kt:165-169 | getSelectedText is null only for an empty selection; otherwise it is exactly the selected units, and it is non-empty when something is selected |
| TextField.SelectedText | app/src/main/java/com/amosgwa/lisukeyboard/MainKeyboard.kt:165 | the host's getSelectedText(0): null only for an empty selection, otherwise as many units as are selected; `SelectedTextReportsSelection` says they are the selected ones |
| TextField.DeleteSurroundingBefore | app/src/main/java/com/amosgwa/lisukeyboard/MainKeyboard.kt:167 | the host's deleteSurroundingText(1, 0): one unit shorter unless the selection starts the text, with a selection of the same width; `DeleteSurroundingRemovesOneUnit` says which unit goes |
| TextField.CommitText | app/src/main/java/com/amosgwa/lisukeyboard/MainKeyboard.kt:220 | the host's commitText: the selection's units are replaced by the committed ones and the cursor is a point; `CommitReplacesSelection` says where everything lands |
| TextField.DeleteSurroundingRemovesOneUnit | app/src/main/java/com/amosgwa/lisukeyboard/MainKeyboard.kt:167 | deleteSurroundingText(1, 0) removes exactly the unit before the selection, keeps the rest of the text and keeps the same units selected |
| TextField.CommitReplacesSelection | app/src/main/java/com/amosgwa/lisukeyboard/MainKeyboard.kt:220 | commitText puts the text in place of the selection and keeps what surrounds it; the cursor is a point, and with 1 it lands right after the text |
| TextField.DeleteKey | app/src/main/java/com/amosgwa/lisukeyboard/MainKeyboard.kt:164-175 | the delete branch removes the selection if there is one, else one unit before the cursor (none at the start), and leaves a point cursor; the two lemmas below say which units go |
| TextField.DeleteKeyWithoutSelection | app/src/main/java/com/amosgwa/lisukeyboard/MainKeyboard.kt:164-175 | with nothing selected (null or ""), the delete key removes exactly the unit before the cursor and moves the cursor back; at the start of the text it changes nothing |
| TextField.DeleteKeyWithSelection | app/src/main/java/com/amosgwa/lisukeyboard/MainKeyboard.kt:164-175 | with a non-empty selection, the delete key removes exactly the selected units and leaves the cursor where the selection began |
| TextField.DeleteThenRetypeRestores | app/src/main/java/com/amosgwa/lisukeyboard/MainKeyboard.kt:164-175 | deleting the unit before the cursor and then typing it back restores the editor exactly |
| KeyEffects.EditorAfter | app/src/main/java/com/amosgwa/lisukeyboard/MainKeyboard.kt:176-218 | the service makes no edit of its own for page keys, the picker and Enter; delete and the commits are its only edits. What the editor does with the Enter key event is not modelled |
| KeyEffects.NextPage | app/src/main/java/com/amosgwa/lisukeyboard/CustomMainKeyboard.kt:172-213 | a page key sets its page and returns before the revert; any other key never leaves SHIFT on and keeps NORMAL and SYMBOL; `LastPageKeyDecides` gives the page after any run of keys |
| KeyEffects.RunPagesSplit | app/src/main/java/com/amosgwa/lisukeyboard/CustomMainKeyboard.kt:156-214 | the page after a run of keys is the page after its first part, continued by its second part |
| KeyEffects.StickyPagesSurviveKeys | app/src/main/java/com/amosgwa/lisukeyboard/CustomMainKeyboard.kt:210-213 | SYMBOL (and NORMAL) survives any run of keys that contains no page key |
| KeyEffects.ShiftLastsOneKey | app/src/main/java/com/amosgwa/lisukeyboard/CustomMainKeyboard.kt:210-213 | after SHIFT, any non-empty run of non-page keys (commits, delete, Enter, the picker) ends on NORMAL |
| KeyEffects.LastPageKeyDecides | app/src/main/java/com/amosgwa/lisukeyboard/CustomMainKeyboard.kt:172-213 | after a run, the page is the one the last page key chose, except that a chosen SHIFT becomes NORMAL once any key follows it |
| KeyEffects.NextPageIdempotent | app/src/main/java/com/amosgwa/lisukeyboard/CustomMainKeyboard.kt:172-213 | pressing the same key twice leaves the page where one press left it |
| KeyEffects.CommitKeysInsertExactly | app/src/main/java/com/amosgwa/lisukeyboard/CustomMainKeyboard.kt:188-208 | a literal inserts its one unit and a compound inserts its two units in order, replacing the selection as one edit; the cursor ends after a literal, and after `commitText(output, 2)` it ends one unit past the pair when text follows |
| LanguageIndex.KotlinRem | app/src/main/java/com/amosgwa/lisukeyboard/CustomMainKeyboard.kt:150 | Kotlin's `%` lies in [0, n) for a non-negative dividend and in (-n, 0] for a negative one |
| LanguageIndex.KotlinRemCongruent | app/src/main/java/com/amosgwa/lisukeyboard/CustomMainKeyboard.kt:150 | Kotlin's `%` differs from the dividend by a multiple of n; with `KotlinRem`'s sign ranges this makes it the truncated remainder |
| LanguageIndex.NextLanguageIndex | app/src/main/java/com/amosgwa/lisukeyboard/CustomMainKeyboard.kt:150 | changeLanguage's index is a valid language index whenever idx + direction + n is not negative |
| LanguageIndex.SwitchStaysInRange | app/src/main/java/com/amosgwa/lisukeyboard/CustomMainKeyboard.kt:145-154 | a swipe of +1 or -1 from a valid index gives a valid index |
| LanguageIndex.OneStep | app/src/main/java/com/amosgwa/lisukeyboard/CustomMainKeyboard.kt:150 | +1 moves to the next language and wraps from n - 1 to 0; -1 moves to the previous one and wraps from 0 to n - 1 |
| LanguageIndex.FarBackwardLeavesRange | app/src/main/java/com/amosgwa/lisukeyboard/CustomMainKeyboard.kt:150 | when idx + direction + n is negative, the index is negative (out of range) exactly when idx + direction is not a multiple of n, and 0 otherwise, because Kotlin's remainder keeps the dividend's sign |
| LanguageIndex.SingleLanguageSwitchIsNoOp | app/src/main/java/com/amosgwa/lisukeyboard/CustomMainKeyboard.kt:150 | with one language, a swipe either way keeps index 0 |
| LanguageIndex.BackUndoesForward | app/src/main/java/com/amosgwa/lisukeyboard/CustomMainKeyboard.kt:150 | a swipe back undoes a swipe forward |
| LanguageIndex.SwitchesInRange | app/src/main/java/com/amosgwa/lisukeyboard/CustomMainKeyboard.kt:145-154 | any number of unit swipes from a valid index stays valid |
| LanguageIndex.SwitchesLast | app/src/main/java/com/amosgwa/lisukeyboard/CustomMainKeyboard.kt:145-154 | k + 1 swipes are k swipes followed by one more |
| LanguageIndex.ForwardThenBackReturns | app/src/main/java/com/amosgwa/lisukeyboard/CustomMainKeyboard.kt:145-154 | k swipes forward followed by k swipes back return to the starting language |
| LanguageCatalog.Complete | app/src/main/java/com/amosgwa/lisukeyboard/MainKeyboard.kt:113-128 | an entry is accepted if and only if its typed-array id, its name and all three layout ids (normal, shift, symbol) are present; `Load` succeeds exactly when every entry is |
| LanguageCatalog.ErrorOf | app/src/main/java/com/amosgwa/lisukeyboard/MainKeyboard.kt:113-128 | the exception of a rejected entry: the array-id check comes first, so a missing id gives "Invalid language array resource" whatever else is missing; only an entry with its id but a missing name or layout gives the second message |
| LanguageCatalog.FirstIncomplete | app/src/main/java/com/amosgwa/lisukeyboard/MainKeyboard.kt:112-128 | every entry before the first throwing one is complete, and that entry is not |
| LanguageCatalog.LoadedPrefix | app/src/main/java/com/amosgwa/lisukeyboard/MainKeyboard.kt:112-133 | the languages appended before the loop stops: one per entry before the first throwing one, each built from that entry, in resource order |
| LanguageCatalog.LoadedPrefixGrows | app/src/main/java/com/amosgwa/lisukeyboard/MainKeyboard.kt:112-135 | below the first throwing entry, each entry adds exactly its own language to what was loaded |
| LanguageCatalog.Load | app/src/main/java/com/amosgwa/lisukeyboard/MainKeyboard.kt:109-140 | the load succeeds if and only if every entry is complete; it then yields one language per entry, in order; otherwise it fails with the first incomplete entry's exception (the array id is checked before the rest) |
| LanguageCatalog.LoadYieldsParallelLists | app/src/main/java/com/amosgwa/lisukeyboard/MainKeyboard.kt:130-133 | after a successful load the four lists are as long as the resource array, and their i-th elements are the i-th entry's name and three layout ids |
| LanguageCatalog.MissingSymbolLayoutFails | app/src/main/java/com/amosgwa/lisukeyboard/MainKeyboard.kt:122-128 | one entry without a symbol layout makes the whole load fail |
| LanguageCatalog.ListsGrow | app/src/main/java/com/amosgwa/lisukeyboard/MainKeyboard.kt:130-133 | one more language appends its name and each layout id to the matching list |
| MainKeyboardService.AddRoundExtends | app/src/main/java/com/amosgwa/lisukeyboard/MainKeyboard.kt:112-135 | one accepted entry extends the loaded state by that language and keeps every other field |
| MainKeyboardService.MainKeyboard.constructor | app/src/main/java/com/amosgwa/lisukeyboard/MainKeyboard.kt:23-35 | the service starts with empty lists, no keyboards, no view, no preference store and index 0 |
| MainKeyboardService.MainKeyboard.LoadLanguages | app/src/main/java/com/amosgwa/lisukeyboard/MainKeyboard.kt:109-140 | returns no error exactly when `Load` succeeds, and otherwise `Load`'s exception; the four lists grow by the entries before the first failure and stay parallel; nothing else changes |
| MainKeyboardService.MainKeyboard.AddLanguage | app/src/main/java/com/amosgwa/lisukeyboard/MainKeyboard.kt:130-133 | the four appends of one entry, with every other field unchanged |
| MainKeyboardService.MainKeyboard.CreateInputView | app/src/main/java/com/amosgwa/lisukeyboard/MainKeyboard.kt:63-71 | reads the saved index (the last one saved, if the store was already open), builds that language's three keyboards, each with its own page type, and a view that shows its NORMAL keyboard and name; currentLanguageIdx is untouched |
| MainKeyboardService.MainKeyboard.SetCurrentLanguageIdx | app/src/main/java/com/amosgwa/lisukeyboard/MainKeyboard.kt:36-45 | stores the index, saves it only if the preference store is open, rebuilds the three keyboards from that language's layouts and makes the view show that language's NORMAL keyboard |
| MainKeyboardService.MainKeyboard.OnLanguageSelected | app/src/main/java/com/amosgwa/lisukeyboard/MainKeyboard.kt:96-100 | deletes the unit before the cursor, then runs the setter: index stored and saved if the store is open, all three keyboards rebuilt from the chosen language, view reset to its NORMAL keyboard; the lists and the saved start index are unchanged, and a ready service stays ready |
| MainKeyboardService.MainKeyboard.OnKey | app/src/main/java/com/amosgwa/lisukeyboard/MainKeyboard.kt:160-229 | plays `ClassifyClick`'s sound and takes the first matching branch; edits the editor as that action does; a page key shows that page's keyboard; any other key shows NORMAL in place of SHIFT and otherwise keeps the page; the lists, keyboards, index and store are unchanged |
| CustomMainKeyboardService.KeyboardTable | app/src/main/java/com/amosgwa/lisukeyboard/CustomMainKeyboard.kt:110-114 | keyboardsOfLanguages as a load fills it: position i holds language i's NORMAL, SHIFT and SYMBOL keyboards; `KeyboardTableHoldsLayouts` and `KeyboardTableGrows` pin down its domain and entries |
| CustomMainKeyboardService.KeyboardTableHoldsLayouts | app/src/main/java/com/amosgwa/lisukeyboard/CustomMainKeyboard.kt:106-114 | keyboardsOfLanguages has an entry exactly for each loaded position; each entry holds exactly the NORMAL, SHIFT and SYMBOL keyboards of that language, tagged with their page and its name |
| CustomMainKeyboardService.KeyboardTableGrows | app/src/main/java/com/amosgwa/lisukeyboard/CustomMainKeyboard.kt:110-114 | loading one more language puts its keyboard set at its own position and changes no other entry |
| CustomMainKeyboardService.PutNextLanguage | app/src/main/java/com/amosgwa/lisukeyboard/CustomMainKeyboard.kt:114 | `put(i, …)` on a table extended by the first i languages gives the table extended by i + 1 |
| CustomMainKeyboardService.AddRoundExtends | app/src/main/java/com/amosgwa/lisukeyboard/CustomMainKeyboard.kt:100-114 | one accepted entry extends the loaded state by that language: the lists, the table and the three current keyboards |
| CustomMainKeyboardService.CustomMainKeyboard.constructor | app/src/main/java/com/amosgwa/lisukeyboard/CustomMainKeyboard.kt:26-52 | the service starts with empty lists, an empty table, no keyboards, index 0 and page NORMAL |
| CustomMainKeyboardService.CustomMainKeyboard.LoadLanguages | app/src/main/java/com/amosgwa/lisukeyboard/CustomMainKeyboard.kt:78-119 | returns no error exactly when `Load` succeeds, and otherwise `Load`'s exception. The lists grow by the languages loaded before the failure; the table gains their keyboard sets at their positions; the three keyboards are the last loaded language's, or unchanged if none loaded. The index and page are unchanged |
| CustomMainKeyboardService.CustomMainKeyboard.AddLanguage | app/src/main/java/com/amosgwa/lisukeyboard/CustomMainKeyboard.kt:100-114 | one entry's appends, its three keyboards built from the lists' last elements, and their set stored at its position |
| CustomMainKeyboardService.CustomMainKeyboard.ChangeLanguage | app/src/main/java/com/amosgwa/lisukeyboard/CustomMainKeyboard.kt:149-154 | sets the index to `NextLanguageIndex` of the old one and keeps the page and everything else |
| CustomMainKeyboardService.CustomMainKeyboard.OnKey | app/src/main/java/com/amosgwa/lisukeyboard/CustomMainKeyboard.kt:156-214 | plays `ClassifyClick`'s sound and takes the first matching branch; edits the editor as that action does; sets the page to `NextPage` of the old page; the index, lists and keyboards are unchanged |

## Left out

- Android lifecycle, view inflation, `setInputView` and `disableParentClipping`: these are platform glue with no input logic.
- The view returned by `onCreateInputView`: `MainKeyboard` returns a new `CustomKeyboardView`, and `CustomMainKeyboard` returns the inflated view. Neither view is modelled; `MainKeyboard`'s `GwaKeyboardView` is a value holding the keyboard shown and the language name.
- Aliasing between the view and the service's fields is not modelled. The language list handed to `GwaKeyboardView.languages` is not modelled either.
- Redraws are not modelled: `invalidateAllKeys`, `updateKeyboardPage`, `updateKeyboardLanguage` and `prepareAllKeyboardsForRendering`.
- `playClick` produces only the choice of sound. The `AudioManager` call is the host's.
- The input-method picker and the Enter key event are action tags. The system picker and the editor's response to Enter are the host's. Only the key-down event is ever sent.
- `loadKeyCodes` reads integer resources. The key-code table is a parameter of the constructors, so the placeholder value -777 (`KEYCODE_NONE`) that the codes hold before loading is not modelled.
- `loadLanguages`' resource reads are modelled as the parameter `resources`. `TypedArray.recycle` is not modelled.
- The preference store is an optional saved index. `CustomMainKeyboard.loadSharedPreferences` is empty in the code, so that service always starts at index 0.
- Swipes: `MainKeyboard`'s swipe handlers are empty. `CustomMainKeyboard`'s swipe handlers other than the keyboard-change swipe only log, and `Log` calls are not modelled.
- `MainKeyboard`'s `onPress`, `onRelease`, `onText` and `onCreateCandidatesView` do nothing.
- CustomMainKeyboardService.CustomMainKeyboard.ChangeLanguage: requires at least one language. With none, Kotlin's `%` divides by zero and throws.
- LanguageIndex.NextLanguageIndex: 32-bit `Int` overflow of `idx + direction + n` is not modelled, because the indices and directions involved are tiny.
- MainKeyboardService.MainKeyboard.SetCurrentLanguageIdx: requires an index within the lists. The code would throw `IndexOutOfBoundsException` otherwise. The same holds for `CreateInputView` and `OnLanguageSelected`.
- MainKeyboardService.MainKeyboard.OnKey: requires the view and keyboards to exist. Without a view, the cast `keyboardView?.keyboard as GwaKeyboard` throws.
- The observable delegate of `currentSelectedLanguageIdx` only triggers a redraw when the table has an entry for the new index. Since that is only a redraw, only the stored index is modelled.
- Host failures are not modelled. These include:
  - a null `currentInputConnection`: the first editor call then throws, `onKey` skips the SHIFT revert, and `onLanguageSelected` never reaches the setter;
  - a failed editor call, such as `commitText` or `deleteSurroundingText` doing nothing, or `getSelectedText` returning null while text is selected. In that last case the delete branch removes the unit before the selection instead of the selection.
- TextField.SelectedText: null stands only for an empty selection in an editor that reports it as null. The failure null of a slow or invalid connection is left out, so `DeleteKeyWithSelection` holds only for calls that succeed.
