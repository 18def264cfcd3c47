/**
 * MainKeyboard: the input-method service built on the platform
 * KeyboardView. The active page is the type of the keyboard attached to
 * the view; choosing a language rebuilds the three keyboards and shows the
 * NORMAL one.
 */
module MainKeyboardService {
  import opened Wrappers
  import opened KeyCodes
  import opened Dispatch
  import opened Feedback
  import opened TextField
  import opened KeyEffects
  import opened LanguageCatalog

  /** A GwaKeyboard: the layout it was inflated from and its page type. */
  datatype Keyboard = Keyboard(layoutId: int, page: Page)

  /** What the service sets on its GwaKeyboardView: the keyboard shown and the language name. */
  datatype KeyboardView = KeyboardView(keyboard: Keyboard, currentLanguage: string)

  /** The values of the service's fields at one moment. */
  datatype Snapshot = Snapshot(
    languageNames: seq<string>, languageXmlRes: seq<int>,
    languageShiftXmlRes: seq<int>, languageSymbolXmlRes: seq<int>,
    keyboardNormal: Option<Keyboard>, keyboardShift: Option<Keyboard>,
    keyboardSymbol: Option<Keyboard>, keyboardView: Option<KeyboardView>,
    preferences: Option<int>, lastSavedLanguageIdx: int, currentLanguageIdx: int,
    editor: Editor)

  /**
   * `now` is `start` after loading `loaded`: the four lists extended by the
   * languages' names and layout ids, every other field unchanged.
   */
  predicate Extends(start: Snapshot, now: Snapshot, loaded: seq<Language>)
  {
    now == start.(languageNames := start.languageNames + Names(loaded),
                  languageXmlRes := start.languageXmlRes + NormalIds(loaded),
                  languageShiftXmlRes := start.languageShiftXmlRes + ShiftIds(loaded),
                  languageSymbolXmlRes := start.languageSymbolXmlRes + SymbolIds(loaded))
  }

  /** One round of loadLanguages for language `l`: its name and layout ids appended. */
  function AddRound(s: Snapshot, l: Language): Snapshot
  {
    s.(languageNames := s.languageNames + [l.name],
       languageXmlRes := s.languageXmlRes + [l.normal],
       languageShiftXmlRes := s.languageShiftXmlRes + [l.shift],
       languageSymbolXmlRes := s.languageSymbolXmlRes + [l.symbol])
  }

  /** A round for the next language keeps `Extends`, with that language loaded. */
  lemma AddRoundExtends(start: Snapshot, now: Snapshot, loaded: seq<Language>, l: Language)
    requires Extends(start, now, loaded)
    ensures Extends(start, AddRound(now, l), loaded + [l])
  {
    ListsGrow(loaded, l);
  }

  class MainKeyboard {
    const codes: KeyCodeTable

    var languageNames: seq<string>
    var languageXmlRes: seq<int>
    var languageShiftXmlRes: seq<int>
    var languageSymbolXmlRes: seq<int>

    var keyboardNormal: Option<Keyboard>
    var keyboardShift: Option<Keyboard>
    var keyboardSymbol: Option<Keyboard>
    var keyboardView: Option<KeyboardView>

    /** The preference store's saved language index; None until the store is opened. */
    var preferences: Option<int>
    var lastSavedLanguageIdx: int
    var currentLanguageIdx: int

    /** The editor behind currentInputConnection. */
    var editor: Editor

    /** The four lists are parallel and each keyboard carries its own page type. */
    ghost predicate Valid()
      reads this
    {
      && |languageXmlRes| == |languageNames|
      && |languageShiftXmlRes| == |languageNames|
      && |languageSymbolXmlRes| == |languageNames|
      && (keyboardNormal.Some? ==> keyboardNormal.value.page == Normal)
      && (keyboardShift.Some? ==> keyboardShift.value.page == Shift)
      && (keyboardSymbol.Some? ==> keyboardSymbol.value.page == Symbol)
    }

    /** The input view exists and the three keyboards of a language are built. */
    predicate Ready()
      reads this
    {
      keyboardView.Some? && keyboardNormal.Some? && keyboardShift.Some? && keyboardSymbol.Some?
    }

    /** The keyboard of the current language for a page. */
    function PageKeyboard(p: Page): Keyboard
      reads this
      requires Ready()
    {
      match p
      case Normal => keyboardNormal.value
      case Shift => keyboardShift.value
      case Symbol => keyboardSymbol.value
    }

    /** The fields, as values. */
    ghost function State(): Snapshot
      reads this
    {
      Snapshot(languageNames, languageXmlRes, languageShiftXmlRes, languageSymbolXmlRes,
               keyboardNormal, keyboardShift, keyboardSymbol, keyboardView,
               preferences, lastSavedLanguageIdx, currentLanguageIdx, editor)
    }

    /** The service as loadKeyCodes leaves it: nothing loaded, no view, index 0. */
    constructor (codes: KeyCodeTable, editor: Editor)
      ensures Valid() && !Ready()
      ensures this.codes == codes && this.editor == editor
      ensures languageNames == [] && languageXmlRes == []
      ensures languageShiftXmlRes == [] && languageSymbolXmlRes == []
      ensures keyboardNormal == None && keyboardShift == None && keyboardSymbol == None
      ensures keyboardView == None && preferences == None
      ensures lastSavedLanguageIdx == 0 && currentLanguageIdx == 0
    {
      this.codes := codes;
      this.editor := editor;
      languageNames, languageXmlRes := [], [];
      languageShiftXmlRes, languageSymbolXmlRes := [], [];
      keyboardNormal, keyboardShift, keyboardSymbol := None, None, None;
      keyboardView, preferences := None, None;
      lastSavedLanguageIdx, currentLanguageIdx := 0, 0;
    }

    /**
     * loadLanguages: appends each entry's name and layout ids in resource
     * order, stopping with the entry's exception at the first entry that
     * lacks any of them; the entries before it stay appended.
     */
    method LoadLanguages(resources: seq<LanguageResource>) returns (error: Option<LoadError>)
      requires Valid()
      modifies this
      ensures Valid()
      ensures error == (if Load(resources).Success? then None else Some(Load(resources).error))
      ensures languageNames == old(languageNames) + Names(LoadedPrefix(resources))
      ensures languageXmlRes == old(languageXmlRes) + NormalIds(LoadedPrefix(resources))
      ensures languageShiftXmlRes == old(languageShiftXmlRes) + ShiftIds(LoadedPrefix(resources))
      ensures languageSymbolXmlRes == old(languageSymbolXmlRes) + SymbolIds(LoadedPrefix(resources))
      ensures keyboardNormal == old(keyboardNormal) && keyboardShift == old(keyboardShift)
      ensures keyboardSymbol == old(keyboardSymbol) && keyboardView == old(keyboardView)
      ensures preferences == old(preferences) && lastSavedLanguageIdx == old(lastSavedLanguageIdx)
      ensures currentLanguageIdx == old(currentLanguageIdx) && editor == old(editor)
    {
      ghost var start := State();
      ghost var prefix := LoadedPrefix(resources);
      ghost var loaded: seq<Language> := [];
      var i := 0;
      while i < |resources|
        invariant i <= FirstIncomplete(resources) && i <= |resources|
        invariant loaded == prefix[..i]
        invariant Extends(start, State(), loaded)
      {
        var entry := resources[i];
        if entry.id == NO_RESOURCE {
          assert FirstIncomplete(resources) == i;
          assert loaded == prefix;
          error := Some(InvalidLanguageArray);
          return;
        }
        if entry.name.None? || entry.normal == NO_RESOURCE || entry.shift == NO_RESOURCE
           || entry.symbol == NO_RESOURCE
        {
          assert FirstIncomplete(resources) == i;
          assert loaded == prefix;
          error := Some(IncompleteLanguage);
          return;
        }
        LoadedPrefixGrows(resources, i);
        ghost var before := State();
        AddLanguage(entry);
        AddRoundExtends(start, before, loaded, ToLanguage(entry));
        loaded := loaded + [ToLanguage(entry)];
        i := i + 1;
      }
      assert loaded == prefix;
      error := None;
    }

    /** One round of loadLanguages' loop for an accepted entry: the four appends. */
    method AddLanguage(entry: LanguageResource)
      requires Complete(entry)
      modifies this
      ensures State() == AddRound(old(State()), ToLanguage(entry))
    {
      languageNames := languageNames + [entry.name.value];
      languageXmlRes := languageXmlRes + [entry.normal];
      languageShiftXmlRes := languageShiftXmlRes + [entry.shift];
      languageSymbolXmlRes := languageSymbolXmlRes + [entry.symbol];
    }

    /**
     * onCreateInputView: opens the preference store, which holds
     * `savedIdx` (the index last saved, if the store was already open),
     * builds that language's keyboards and shows its NORMAL keyboard in a
     * new view. currentLanguageIdx is not touched.
     */
    method CreateInputView(savedIdx: int)
      requires Valid() && 0 <= savedIdx < |languageNames|
      requires preferences.Some? ==> savedIdx == preferences.value
      modifies this
      ensures Valid() && Ready()
      ensures languageNames == old(languageNames) && languageXmlRes == old(languageXmlRes)
      ensures languageShiftXmlRes == old(languageShiftXmlRes)
      ensures languageSymbolXmlRes == old(languageSymbolXmlRes)
      ensures preferences == Some(savedIdx) && lastSavedLanguageIdx == savedIdx
      ensures keyboardNormal == Some(Keyboard(languageXmlRes[savedIdx], Normal))
      ensures keyboardShift == Some(Keyboard(languageShiftXmlRes[savedIdx], Shift))
      ensures keyboardSymbol == Some(Keyboard(languageSymbolXmlRes[savedIdx], Symbol))
      ensures keyboardView == Some(KeyboardView(keyboardNormal.value, languageNames[savedIdx]))
      ensures currentLanguageIdx == old(currentLanguageIdx) && editor == old(editor)
    {
      preferences := Some(savedIdx);
      lastSavedLanguageIdx := savedIdx;
      keyboardNormal := Some(Keyboard(languageXmlRes[lastSavedLanguageIdx], Normal));
      keyboardShift := Some(Keyboard(languageShiftXmlRes[lastSavedLanguageIdx], Shift));
      keyboardSymbol := Some(Keyboard(languageSymbolXmlRes[lastSavedLanguageIdx], Symbol));
      keyboardView := Some(KeyboardView(keyboardNormal.value, languageNames[lastSavedLanguageIdx]));
    }

    /**
     * The currentLanguageIdx setter: stores the index, saves it in the
     * preference store if it is open, rebuilds the three keyboards from that
     * language's layouts and makes the view show its NORMAL keyboard.
     */
    method SetCurrentLanguageIdx(value: int)
      requires Valid() && 0 <= value < |languageNames|
      modifies this
      ensures Valid()
      ensures languageNames == old(languageNames) && languageXmlRes == old(languageXmlRes)
      ensures languageShiftXmlRes == old(languageShiftXmlRes)
      ensures languageSymbolXmlRes == old(languageSymbolXmlRes)
      ensures currentLanguageIdx == value
      ensures preferences == if old(preferences).Some? then Some(value) else None
      ensures keyboardNormal == Some(Keyboard(languageXmlRes[value], Normal))
      ensures keyboardShift == Some(Keyboard(languageShiftXmlRes[value], Shift))
      ensures keyboardSymbol == Some(Keyboard(languageSymbolXmlRes[value], Symbol))
      ensures keyboardView ==
                if old(keyboardView).Some?
                then Some(KeyboardView(keyboardNormal.value, languageNames[value]))
                else None
      ensures keyboardView.Some? ==> keyboardView.value.keyboard.page == Normal
      ensures lastSavedLanguageIdx == old(lastSavedLanguageIdx) && editor == old(editor)
    {
      currentLanguageIdx := value;
      if preferences.Some? {
        preferences := Some(value);
      }
      keyboardNormal := Some(Keyboard(languageXmlRes[value], Normal));
      keyboardShift := Some(Keyboard(languageShiftXmlRes[value], Shift));
      keyboardSymbol := Some(Keyboard(languageSymbolXmlRes[value], Symbol));
      if keyboardView.Some? {
        keyboardView := Some(keyboardView.value.(keyboard := keyboardNormal.value));
        keyboardView := Some(keyboardView.value.(currentLanguage := languageNames[value]));
      }
    }

    /**
     * onLanguageSelected: deletes the unit before the cursor, then switches
     * to the chosen language through the currentLanguageIdx setter.
     */
    method OnLanguageSelected(languageIdx: int)
      requires Valid() && 0 <= languageIdx < |languageNames|
      modifies this
      ensures Valid()
      ensures languageNames == old(languageNames) && languageXmlRes == old(languageXmlRes)
      ensures languageShiftXmlRes == old(languageShiftXmlRes)
      ensures languageSymbolXmlRes == old(languageSymbolXmlRes)
      ensures editor == DeleteSurroundingBefore(old(editor))
      ensures currentLanguageIdx == languageIdx
      ensures keyboardNormal == Some(Keyboard(languageXmlRes[languageIdx], Normal))
      ensures keyboardShift == Some(Keyboard(languageShiftXmlRes[languageIdx], Shift))
      ensures keyboardSymbol == Some(Keyboard(languageSymbolXmlRes[languageIdx], Symbol))
      ensures keyboardView ==
                if old(keyboardView).Some?
                then Some(KeyboardView(keyboardNormal.value, languageNames[languageIdx]))
                else None
      ensures preferences == if old(preferences).Some? then Some(languageIdx) else None
      ensures lastSavedLanguageIdx == old(lastSavedLanguageIdx)
      ensures old(Ready()) ==> Ready()
    {
      editor := DeleteSurroundingBefore(editor);
      SetCurrentLanguageIdx(languageIdx);
    }

    /**
     * onKey: plays the key's click, runs the first `when` branch whose code
     * matches and, unless that was a page-control branch (which returns at
     * once), replaces a SHIFT keyboard by the NORMAL one.
     */
    method OnKey(primaryCode: int) returns (click: Sound, action: KeyAction)
      requires Valid() && Ready()
      modifies this
      ensures Valid() && Ready()
      ensures click == ClassifyClick(primaryCode)
      ensures action == Classify(MainArms(codes), codes, primaryCode)
      ensures editor == EditorAfter(old(editor), action)
      ensures keyboardView.value.keyboard ==
                if action.ChangePage? then PageKeyboard(action.page)
                else if old(keyboardView.value.keyboard.page) == Shift then PageKeyboard(Normal)
                else old(keyboardView.value.keyboard)
      ensures keyboardView.value.keyboard.page == NextPage(old(keyboardView.value.keyboard.page), action)
      ensures keyboardView.value.currentLanguage == old(keyboardView.value.currentLanguage)
      ensures keyboardNormal == old(keyboardNormal) && keyboardShift == old(keyboardShift)
      ensures keyboardSymbol == old(keyboardSymbol)
      ensures languageNames == old(languageNames) && languageXmlRes == old(languageXmlRes)
      ensures languageShiftXmlRes == old(languageShiftXmlRes)
      ensures languageSymbolXmlRes == old(languageSymbolXmlRes)
      ensures currentLanguageIdx == old(currentLanguageIdx) && preferences == old(preferences)
      ensures lastSavedLanguageIdx == old(lastSavedLanguageIdx)
    {
      click := ClassifyClick(primaryCode);
      match Select(MainArms(codes), primaryCode) {
        case Some(DeleteArm) =>
          var selectedText := SelectedText(editor);
          if selectedText.None? {
            editor := DeleteSurroundingBefore(editor);
          } else if |selectedText.value| == 0 {
            editor := DeleteSurroundingBefore(editor);
          } else {
            editor := CommitText(editor, [], 1);
          }
          action := DeleteBackward;
        case Some(AbcArm) =>
          keyboardView := Some(keyboardView.value.(keyboard := keyboardNormal.value));
          action := ChangePage(Normal);
          return;
        case Some(ShiftArm) =>
          keyboardView := Some(keyboardView.value.(keyboard := keyboardShift.value));
          action := ChangePage(Shift);
          return;
        case Some(UnshiftArm) =>
          keyboardView := Some(keyboardView.value.(keyboard := keyboardNormal.value));
          action := ChangePage(Normal);
          return;
        case Some(SymbolArm) =>
          keyboardView := Some(keyboardView.value.(keyboard := keyboardSymbol.value));
          action := ChangePage(Symbol);
          return;
        case Some(MyaTiMyaNaArm) =>
          var output := [ToChar(codes.myaTi), ToChar(codes.myaNa)];
          editor := CommitText(editor, output, 2);
          action := CommitCompound(output[0], output[1]);
        case Some(NaPoMyaNaArm) =>
          var output := [ToChar(codes.naPo), ToChar(codes.myaNa)];
          editor := CommitText(editor, output, 2);
          action := CommitCompound(output[0], output[1]);
        case Some(LanguageArm) =>
          action := ShowInputMethodPicker;
        case Some(DoneArm) =>
          action := SendEnter;
        case None =>
          var unit := ToChar(primaryCode);
          editor := CommitText(editor, [unit], 1);
          action := CommitLiteral(unit);
      }
      // Switch back to normal if the page shown is the shift page.
      if keyboardView.value.keyboard.page == Shift {
        keyboardView := Some(keyboardView.value.(keyboard := keyboardNormal.value));
      }
    }
  }
}
