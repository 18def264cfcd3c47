/**
 * The editor behind the current input connection, reduced to what onKey
 * and onLanguageSelected use of it: getSelectedText(0),
 * deleteSurroundingText(1, 0) and commitText(text, newCursorPosition).
 * The editor is the host's; its operations follow the documented
 * InputConnection contract.
 */
module TextField {
  import opened Wrappers
  import opened KeyCodes

  /**
   * The text in UTF-16 code units and the selection [selStart, selEnd); an
   * empty selection is the cursor. `emptyAsNull` says whether this editor
   * answers getSelectedText with null rather than "" when nothing is
   * selected (editors differ, and onKey handles both).
   */
  datatype EditorState = EditorState(text: seq<CodeUnit>, selStart: nat, selEnd: nat, emptyAsNull: bool)

  type Editor = e: EditorState | e.selStart <= e.selEnd <= |e.text|
    witness EditorState([], 0, 0, false)

  /** The editor after placing the cursor (an empty selection) at `pos`. */
  function WithCursor(text: seq<CodeUnit>, pos: nat, emptyAsNull: bool): Editor
    requires pos <= |text|
  {
    EditorState(text, pos, pos, emptyAsNull)
  }

  /** getSelectedText(0): null (only when nothing is selected) or the selected units. */
  function SelectedText(e: Editor): (t: Option<seq<CodeUnit>>)
    ensures t.None? ==> e.selStart == e.selEnd
    ensures t.Some? ==> |t.value| == e.selEnd - e.selStart
  {
    if e.selStart == e.selEnd && e.emptyAsNull then None
    else Some(e.text[e.selStart..e.selEnd])
  }

  /** deleteSurroundingText(1, 0): removes the unit just before the selection, if there is one. */
  function DeleteSurroundingBefore(e: Editor): (r: Editor)
    ensures |r.text| == if e.selStart == 0 then |e.text| else |e.text| - 1
    ensures r.selEnd - r.selStart == e.selEnd - e.selStart && r.emptyAsNull == e.emptyAsNull
  {
    if e.selStart == 0 then e
    else EditorState(e.text[..e.selStart - 1] + e.text[e.selStart..],
                     e.selStart - 1, e.selEnd - 1, e.emptyAsNull)
  }

  /**
   * commitText(s, newCursorPosition): s replaces the selection; a positive
   * newCursorPosition puts the cursor newCursorPosition - 1 units after the
   * end of s, any other value that many units from its start, clamped to
   * the text.
   */
  function CommitText(e: Editor, s: seq<CodeUnit>, newCursorPosition: int): (r: Editor)
    ensures |r.text| == |e.text| - (e.selEnd - e.selStart) + |s|
    ensures r.selStart == r.selEnd && r.emptyAsNull == e.emptyAsNull
  {
    var text := e.text[..e.selStart] + s + e.text[e.selEnd..];
    var wanted := if newCursorPosition > 0 then e.selStart + |s| + newCursorPosition - 1
                  else e.selStart + newCursorPosition;
    var pos := if wanted < 0 then 0 else if wanted > |text| then |text| else wanted;
    WithCursor(text, pos, e.emptyAsNull)
  }

  /**
   * The delete key: with nothing selected (null or empty) one unit before
   * the cursor goes, otherwise the selection is replaced by "".
   */
  function DeleteKey(e: Editor): (r: Editor)
    ensures |r.text| == |e.text| - (if e.selStart < e.selEnd then e.selEnd - e.selStart
                                    else if e.selStart > 0 then 1 else 0)
    ensures r.selStart == r.selEnd && r.emptyAsNull == e.emptyAsNull
  {
    match SelectedText(e)
    case None => DeleteSurroundingBefore(e)
    case Some(t) => if |t| == 0 then DeleteSurroundingBefore(e) else CommitText(e, [], 1)
  }

  /** getSelectedText reports exactly the selected units; null means nothing is selected. */
  lemma SelectedTextReportsSelection(e: Editor)
    ensures SelectedText(e).None? ==> e.selStart == e.selEnd
    ensures SelectedText(e).Some? ==> SelectedText(e).value == e.text[e.selStart..e.selEnd]
    ensures e.selStart < e.selEnd ==> SelectedText(e).Some? && |SelectedText(e).value| > 0
  {
  }

  /**
   * deleteSurroundingText(1, 0) removes exactly the one unit before the
   * selection and keeps the selected text selected.
   */
  lemma DeleteSurroundingRemovesOneUnit(e: Editor)
    requires e.selStart > 0
    ensures var r := DeleteSurroundingBefore(e);
      && |r.text| == |e.text| - 1
      && r.text[..e.selStart - 1] == e.text[..e.selStart - 1]
      && r.text[e.selStart - 1..] == e.text[e.selStart..]
      && r.text[r.selStart..r.selEnd] == e.text[e.selStart..e.selEnd]
  {
    var r := DeleteSurroundingBefore(e);
    assert r.text[e.selStart - 1..] == e.text[e.selStart..];
    assert r.text[r.selStart..r.selEnd] == r.text[e.selStart - 1..][..e.selEnd - e.selStart];
  }

  /**
   * commitText replaces the selection by s and keeps everything around it;
   * with newCursorPosition 1 the cursor lands right after s.
   */
  lemma CommitReplacesSelection(e: Editor, s: seq<CodeUnit>, newCursorPosition: int)
    ensures var r := CommitText(e, s, newCursorPosition);
      && |r.text| == |e.text| - (e.selEnd - e.selStart) + |s|
      && r.text[..e.selStart] == e.text[..e.selStart]
      && r.text[e.selStart..e.selStart + |s|] == s
      && r.text[e.selStart + |s|..] == e.text[e.selEnd..]
      && r.selStart == r.selEnd
      && (newCursorPosition == 1 ==> r.selStart == e.selStart + |s|)
  {
    var r := CommitText(e, s, newCursorPosition);
    assert r.text == e.text[..e.selStart] + s + e.text[e.selEnd..];
    assert r.text[e.selStart..e.selStart + |s|] == s;
    assert r.text[e.selStart + |s|..] == e.text[e.selEnd..];
  }

  /**
   * With nothing selected, the delete key removes exactly the unit before
   * the cursor and moves the cursor back over it; at the start of the text
   * it does nothing.
   */
  lemma DeleteKeyWithoutSelection(e: Editor)
    requires e.selStart == e.selEnd
    ensures var r := DeleteKey(e);
      && (e.selStart == 0 ==> r == e)
      && (e.selStart > 0 ==>
            && r.text == e.text[..e.selStart - 1] + e.text[e.selStart..]
            && |r.text| == |e.text| - 1
            && r.selStart == r.selEnd == e.selStart - 1)
  {
  }

  /**
   * With a non-empty selection, the delete key removes the selection and
   * nothing else, leaving the cursor where the selection began.
   */
  lemma DeleteKeyWithSelection(e: Editor)
    requires e.selStart < e.selEnd
    ensures var r := DeleteKey(e);
      && r.text == e.text[..e.selStart] + e.text[e.selEnd..]
      && |r.text| == |e.text| - (e.selEnd - e.selStart)
      && r.selStart == r.selEnd == e.selStart
  {
    assert SelectedText(e) == Some(e.text[e.selStart..e.selEnd]);
  }

  /** Typing back the unit the delete key removed restores the editor exactly. */
  lemma DeleteThenRetypeRestores(e: Editor)
    requires 0 < e.selStart == e.selEnd
    ensures CommitText(DeleteKey(e), [e.text[e.selStart - 1]], 1) == e
  {
    var c := e.selStart;
    var d := DeleteKey(e);
    assert d.text == e.text[..c - 1] + e.text[c..];
    assert d.text[..c - 1] == e.text[..c - 1];
    assert d.text[c - 1..] == e.text[c..];
    assert e.text[..c - 1] + [e.text[c - 1]] + e.text[c..] == e.text;
  }
}
