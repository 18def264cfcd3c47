/**
 * CustomMainKeyboard: the input-method service built on its own
 * CustomInputMethodView. The active page is the `currentKeyboardPage`
 * field; loading builds a NORMAL/SHIFT/SYMBOL keyboard set per language;
 * a swipe moves the language index cyclically and leaves the page alone.
 */
module CustomMainKeyboardService {
  import opened Wrappers
  import opened KeyCodes
  import opened Dispatch
  import opened Feedback
  import opened TextField
  import opened KeyEffects
  import opened LanguageIndex
  import opened LanguageCatalog

  /** A CustomKeyboard: its layout, its page and the language it belongs to. */
  datatype CustomKeyboard = CustomKeyboard(layoutId: int, page: Page, language: string)

  /** The keyboard of a language for one page. */
  function KeyboardOf(l: Language, p: Page): CustomKeyboard
  {
    match p
    case Normal => CustomKeyboard(l.normal, Normal, l.name)
    case Shift => CustomKeyboard(l.shift, Shift, l.name)
    case Symbol => CustomKeyboard(l.symbol, Symbol, l.name)
  }

  /** The keyboards of one language, keyed by page. */
  function PageKeyboards(l: Language): map<Page, CustomKeyboard>
  {
    map[Normal := KeyboardOf(l, Normal), Shift := KeyboardOf(l, Shift), Symbol := KeyboardOf(l, Symbol)]
  }

  /** keyboardsOfLanguages as a load fills it: entry i holds the keyboards of the i-th language. */
  function KeyboardTable(ls: seq<Language>): map<int, map<Page, CustomKeyboard>>
  {
    map i | 0 <= i < |ls| :: PageKeyboards(ls[i])
  }

  /**
   * Entry i of the table holds exactly the NORMAL, SHIFT and SYMBOL layouts
   * of the i-th language, each keyboard tagged with its page and the
   * language's name; there is no entry beyond the languages.
   */
  lemma KeyboardTableHoldsLayouts(ls: seq<Language>, i: int)
    ensures i in KeyboardTable(ls) <==> 0 <= i < |ls|
    ensures 0 <= i < |ls| ==>
      var ks := KeyboardTable(ls)[i];
      && ks.Keys == {Normal, Shift, Symbol}
      && ks[Normal] == CustomKeyboard(ls[i].normal, Normal, ls[i].name)
      && ks[Shift] == CustomKeyboard(ls[i].shift, Shift, ls[i].name)
      && ks[Symbol] == CustomKeyboard(ls[i].symbol, Symbol, ls[i].name)
  {
  }

  /**
   * keyboardNormal, keyboardShift or keyboardSymbol after a load: the
   * page's keyboard of the last language loaded, or what it was before.
   */
  function LastKeyboard(ls: seq<Language>, p: Page, before: Option<CustomKeyboard>): Option<CustomKeyboard>
  {
    if ls == [] then before else Some(KeyboardOf(ls[|ls| - 1], p))
  }

  /** One more language adds one entry, at its position. */
  lemma KeyboardTableGrows(ls: seq<Language>, l: Language)
    ensures KeyboardTable(ls + [l]) == KeyboardTable(ls)[|ls| := PageKeyboards(l)]
  {
    var a, b := KeyboardTable(ls + [l]), KeyboardTable(ls)[|ls| := PageKeyboards(l)];
    assert a.Keys == b.Keys;
    forall i | i in a.Keys ensures a[i] == b[i] {
      if i < |ls| {
        assert (ls + [l])[i] == ls[i];
      }
    }
  }

  /** Putting entry |ls| into a table extended by KeyboardTable(ls) extends it by the longer table. */
  lemma PutNextLanguage(m: map<int, map<Page, CustomKeyboard>>, ls: seq<Language>, l: Language)
    ensures (m + KeyboardTable(ls))[|ls| := PageKeyboards(l)] == m + KeyboardTable(ls + [l])
  {
    KeyboardTableGrows(ls, l);
    var a, b := (m + KeyboardTable(ls))[|ls| := PageKeyboards(l)], m + KeyboardTable(ls + [l]);
    assert a.Keys == b.Keys;
    forall i | i in a.Keys ensures a[i] == b[i] {
    }
  }

  /** The values of the service's fields at one moment. */
  datatype Snapshot = Snapshot(
    languageNames: seq<string>, languageXmlRes: seq<int>,
    languageShiftXmlRes: seq<int>, languageSymbolXmlRes: seq<int>,
    keyboardsOfLanguages: map<int, map<Page, CustomKeyboard>>,
    keyboardNormal: Option<CustomKeyboard>, keyboardShift: Option<CustomKeyboard>,
    keyboardSymbol: Option<CustomKeyboard>,
    currentSelectedLanguageIdx: int, currentKeyboardPage: Page, editor: Editor)

  /**
   * `now` is `start` after loading `loaded`: the lists extended by the
   * languages' names and layout ids, the table by their keyboards, the
   * three keyboards those of the last language; the language index, the
   * page and the editor unchanged.
   */
  predicate Extends(start: Snapshot, now: Snapshot, loaded: seq<Language>)
  {
    && now.languageNames == start.languageNames + Names(loaded)
    && now.languageXmlRes == start.languageXmlRes + NormalIds(loaded)
    && now.languageShiftXmlRes == start.languageShiftXmlRes + ShiftIds(loaded)
    && now.languageSymbolXmlRes == start.languageSymbolXmlRes + SymbolIds(loaded)
    && now.keyboardsOfLanguages == start.keyboardsOfLanguages + KeyboardTable(loaded)
    && now.keyboardNormal == LastKeyboard(loaded, Normal, start.keyboardNormal)
    && now.keyboardShift == LastKeyboard(loaded, Shift, start.keyboardShift)
    && now.keyboardSymbol == LastKeyboard(loaded, Symbol, start.keyboardSymbol)
    && now.currentSelectedLanguageIdx == start.currentSelectedLanguageIdx
    && now.currentKeyboardPage == start.currentKeyboardPage && now.editor == start.editor
  }

  /**
   * One round of loadLanguages for language `l` at position i: its name and
   * layout ids appended, its three keyboards current and stored at i.
   */
  function AddRound(s: Snapshot, i: int, l: Language): Snapshot
  {
    s.(languageNames := s.languageNames + [l.name],
       languageXmlRes := s.languageXmlRes + [l.normal],
       languageShiftXmlRes := s.languageShiftXmlRes + [l.shift],
       languageSymbolXmlRes := s.languageSymbolXmlRes + [l.symbol],
       keyboardsOfLanguages := s.keyboardsOfLanguages[i := PageKeyboards(l)],
       keyboardNormal := Some(KeyboardOf(l, Normal)),
       keyboardShift := Some(KeyboardOf(l, Shift)),
       keyboardSymbol := Some(KeyboardOf(l, Symbol)))
  }

  /** A round for the next language keeps `Extends`, with that language loaded. */
  lemma AddRoundExtends(start: Snapshot, now: Snapshot, loaded: seq<Language>, l: Language)
    requires Extends(start, now, loaded)
    ensures Extends(start, AddRound(now, |loaded|, l), loaded + [l])
  {
    ListsGrow(loaded, l);
    PutNextLanguage(start.keyboardsOfLanguages, loaded, l);
    assert (loaded + [l])[|loaded|] == l;
  }

  class CustomMainKeyboard {
    const codes: KeyCodeTable

    var languageNames: seq<string>
    var languageXmlRes: seq<int>
    var languageShiftXmlRes: seq<int>
    var languageSymbolXmlRes: seq<int>
    var keyboardsOfLanguages: map<int, map<Page, CustomKeyboard>>

    var keyboardNormal: Option<CustomKeyboard>
    var keyboardShift: Option<CustomKeyboard>
    var keyboardSymbol: Option<CustomKeyboard>

    var currentSelectedLanguageIdx: int
    var currentKeyboardPage: Page

    /** The editor behind currentInputConnection. */
    var editor: Editor

    /** The four lists are parallel. */
    ghost predicate Valid()
      reads this
    {
      && |languageXmlRes| == |languageNames|
      && |languageShiftXmlRes| == |languageNames|
      && |languageSymbolXmlRes| == |languageNames|
    }

    /** The fields a load touches or keeps, as values. */
    ghost function State(): Snapshot
      reads this
    {
      Snapshot(languageNames, languageXmlRes, languageShiftXmlRes, languageSymbolXmlRes,
               keyboardsOfLanguages, keyboardNormal, keyboardShift, keyboardSymbol,
               currentSelectedLanguageIdx, currentKeyboardPage, editor)
    }

    /** The fields are those of `start` after loading `loaded`. */
    ghost predicate LoadedAfter(start: Snapshot, loaded: seq<Language>)
      reads this
    {
      Extends(start, State(), loaded)
    }

    /** The service as loadKeyCodes leaves it: nothing loaded, language 0, page NORMAL. */
    constructor (codes: KeyCodeTable, editor: Editor)
      ensures Valid()
      ensures this.codes == codes && this.editor == editor
      ensures languageNames == [] && languageXmlRes == []
      ensures languageShiftXmlRes == [] && languageSymbolXmlRes == []
      ensures keyboardsOfLanguages == map[]
      ensures keyboardNormal == None && keyboardShift == None && keyboardSymbol == None
      ensures currentSelectedLanguageIdx == 0 && currentKeyboardPage == Normal
    {
      this.codes := codes;
      this.editor := editor;
      languageNames, languageXmlRes := [], [];
      languageShiftXmlRes, languageSymbolXmlRes := [], [];
      keyboardsOfLanguages := map[];
      keyboardNormal, keyboardShift, keyboardSymbol := None, None, None;
      currentSelectedLanguageIdx, currentKeyboardPage := 0, Normal;
    }

    /**
     * loadLanguages: appends each entry's name and layout ids in resource
     * order and puts that language's three keyboards at its position in
     * keyboardsOfLanguages; stops with the entry's exception at the first
     * entry lacking any of them, the entries before it staying loaded.
     */
    method LoadLanguages(resources: seq<LanguageResource>) returns (error: Option<LoadError>)
      requires Valid()
      modifies this
      ensures Valid()
      ensures error == (if Load(resources).Success? then None else Some(Load(resources).error))
      ensures languageNames == old(languageNames) + Names(LoadedPrefix(resources))
      ensures languageXmlRes == old(languageXmlRes) + NormalIds(LoadedPrefix(resources))
      ensures languageShiftXmlRes == old(languageShiftXmlRes) + ShiftIds(LoadedPrefix(resources))
      ensures languageSymbolXmlRes == old(languageSymbolXmlRes) + SymbolIds(LoadedPrefix(resources))
      ensures keyboardsOfLanguages == old(keyboardsOfLanguages) + KeyboardTable(LoadedPrefix(resources))
      ensures keyboardNormal == LastKeyboard(LoadedPrefix(resources), Normal, old(keyboardNormal))
      ensures keyboardShift == LastKeyboard(LoadedPrefix(resources), Shift, old(keyboardShift))
      ensures keyboardSymbol == LastKeyboard(LoadedPrefix(resources), Symbol, old(keyboardSymbol))
      ensures currentSelectedLanguageIdx == old(currentSelectedLanguageIdx)
      ensures currentKeyboardPage == old(currentKeyboardPage) && editor == old(editor)
    {
      ghost var start := State();
      ghost var prefix := LoadedPrefix(resources);
      ghost var loaded: seq<Language> := [];
      var i := 0;
      while i < |resources|
        invariant i <= FirstIncomplete(resources) && i <= |resources|
        invariant loaded == prefix[..i]
        invariant Valid() && LoadedAfter(start, loaded)
      {
        var entry := resources[i];
        if entry.id == NO_RESOURCE {
          assert FirstIncomplete(resources) == i;
          assert loaded == prefix;
          error := Some(InvalidLanguageArray);
          return;
        }
        if entry.name.None? || entry.normal == NO_RESOURCE || entry.shift == NO_RESOURCE
           || entry.symbol == NO_RESOURCE
        {
          assert FirstIncomplete(resources) == i;
          assert loaded == prefix;
          error := Some(IncompleteLanguage);
          return;
        }
        LoadedPrefixGrows(resources, i);
        ghost var before := State();
        AddLanguage(i, entry);
        AddRoundExtends(start, before, loaded, ToLanguage(entry));
        loaded := loaded + [ToLanguage(entry)];
        i := i + 1;
      }
      assert loaded == prefix;
      error := None;
    }

    /**
     * One round of loadLanguages' loop for an accepted entry at position i:
     * append its name and layout ids, build its three keyboards from the
     * lists' last elements and put them at i in keyboardsOfLanguages.
     */
    method AddLanguage(i: int, entry: LanguageResource)
      requires Complete(entry)
      modifies this
      ensures State() == AddRound(old(State()), i, ToLanguage(entry))
    {
      languageNames := languageNames + [entry.name.value];
      languageXmlRes := languageXmlRes + [entry.normal];
      languageShiftXmlRes := languageShiftXmlRes + [entry.shift];
      languageSymbolXmlRes := languageSymbolXmlRes + [entry.symbol];
      var name := languageNames[|languageNames| - 1];
      assert name == ToLanguage(entry).name;
      keyboardNormal := Some(CustomKeyboard(languageXmlRes[|languageXmlRes| - 1], Normal, name));
      keyboardShift := Some(CustomKeyboard(languageShiftXmlRes[|languageShiftXmlRes| - 1], Shift, name));
      keyboardSymbol := Some(CustomKeyboard(languageSymbolXmlRes[|languageSymbolXmlRes| - 1], Symbol, name));
      var keyboards := map[Normal := keyboardNormal.value, Shift := keyboardShift.value,
                           Symbol := keyboardSymbol.value];
      assert keyboards == PageKeyboards(ToLanguage(entry));
      keyboardsOfLanguages := keyboardsOfLanguages[i := keyboards];
    }

    /**
     * changeLanguage (the handler of a keyboard-change swipe): moves the
     * language index `direction` steps, cyclically over the loaded
     * languages. The page is left as it was.
     */
    method ChangeLanguage(direction: int)
      requires Valid() && |languageNames| > 0
      modifies this
      ensures Valid()
      ensures languageNames == old(languageNames) && languageXmlRes == old(languageXmlRes)
      ensures currentSelectedLanguageIdx ==
                NextLanguageIndex(old(currentSelectedLanguageIdx), direction, |languageNames|)
      ensures currentKeyboardPage == old(currentKeyboardPage) && editor == old(editor)
      ensures languageShiftXmlRes == old(languageShiftXmlRes)
      ensures languageSymbolXmlRes == old(languageSymbolXmlRes)
      ensures keyboardsOfLanguages == old(keyboardsOfLanguages)
      ensures keyboardNormal == old(keyboardNormal) && keyboardShift == old(keyboardShift)
      ensures keyboardSymbol == old(keyboardSymbol)
    {
      currentSelectedLanguageIdx :=
        KotlinRem((currentSelectedLanguageIdx + direction) + |languageNames|, |languageNames|);
    }

    /**
     * onKey: plays the key's click, runs the first `when` branch whose code
     * matches and, unless that was a page-control branch (which returns at
     * once), turns a SHIFT page back to NORMAL.
     */
    method OnKey(primaryCode: int) returns (click: Sound, action: KeyAction)
      requires Valid()
      modifies this
      ensures Valid()
      ensures click == ClassifyClick(primaryCode)
      ensures action == Classify(CustomArms(codes), codes, primaryCode)
      ensures editor == EditorAfter(old(editor), action)
      ensures currentKeyboardPage == NextPage(old(currentKeyboardPage), action)
      ensures currentSelectedLanguageIdx == old(currentSelectedLanguageIdx)
      ensures languageNames == old(languageNames) && languageXmlRes == old(languageXmlRes)
      ensures languageShiftXmlRes == old(languageShiftXmlRes)
      ensures languageSymbolXmlRes == old(languageSymbolXmlRes)
      ensures keyboardsOfLanguages == old(keyboardsOfLanguages)
      ensures keyboardNormal == old(keyboardNormal) && keyboardShift == old(keyboardShift)
      ensures keyboardSymbol == old(keyboardSymbol)
    {
      click := ClassifyClick(primaryCode);
      match Select(CustomArms(codes), primaryCode) {
        case Some(DeleteArm) =>
          var selectedText := SelectedText(editor);
          if selectedText.None? {
            editor := DeleteSurroundingBefore(editor);
          } else if |selectedText.value| == 0 {
            editor := DeleteSurroundingBefore(editor);
          } else {
            editor := CommitText(editor, [], 1);
          }
          action := DeleteBackward;
        case Some(AbcArm) =>
          currentKeyboardPage := Normal;
          action := ChangePage(Normal);
          return;
        case Some(ShiftArm) =>
          currentKeyboardPage := Shift;
          action := ChangePage(Shift);
          return;
        case Some(UnshiftArm) =>
          currentKeyboardPage := Normal;
          action := ChangePage(Normal);
          return;
        case Some(SymbolArm) =>
          currentKeyboardPage := Symbol;
          action := ChangePage(Symbol);
          return;
        case Some(MyaTiMyaNaArm) =>
          var output := [ToChar(codes.myaTi), ToChar(codes.myaNa)];
          editor := CommitText(editor, output, 2);
          action := CommitCompound(output[0], output[1]);
        case Some(NaPoMyaNaArm) =>
          var output := [ToChar(codes.naPo), ToChar(codes.myaNa)];
          editor := CommitText(editor, output, 2);
          action := CommitCompound(output[0], output[1]);
        case Some(LanguageArm) =>
          action := ShowInputMethodPicker;
        case Some(DoneArm) =>
          action := SendEnter;
        case None =>
          var unit := ToChar(primaryCode);
          editor := CommitText(editor, [unit], 1);
          action := CommitLiteral(unit);
      }
      // Switch back to normal if the page is shift.
      if currentKeyboardPage == Shift {
        currentKeyboardPage := Normal;
      }
    }
  }
}
