/**
 * What a key's action does to the keyboard page and to the editor. Both
 * versions of onKey have the same effect: a page-control key sets the page
 * and returns at once; every other key runs its branch and then falls
 * through to "switch back to normal if the page is SHIFT".
 */
module KeyEffects {
  import opened KeyCodes
  import opened Dispatch
  import opened TextField

  /**
   * The page after one key: a page key sets its page; any other key never
   * leaves SHIFT on and keeps NORMAL and SYMBOL.
   */
  function NextPage(page: Page, action: KeyAction): (p: Page)
    ensures action.ChangePage? ==> p == action.page
    ensures !action.ChangePage? ==> p != Shift && (page != Shift ==> p == page)
  {
    if action.ChangePage? then action.page
    else if page == Shift then Normal
    else page
  }

  /** The page after a run of keys. */
  function RunPages(page: Page, actions: seq<KeyAction>): Page
    decreases |actions|
  {
    if actions == [] then page else RunPages(NextPage(page, actions[0]), actions[1..])
  }

  /** No key in the run is a page-control key. */
  predicate NoPageKeys(actions: seq<KeyAction>)
  {
    forall j :: 0 <= j < |actions| ==> !actions[j].ChangePage?
  }

  /**
   * The editor after one key: delete and the two kinds of commit are the
   * service's only edits. The Enter key event is sent to the editor, but
   * what the editor does with it is the host's and is not modelled here.
   */
  function EditorAfter(e: Editor, action: KeyAction): (r: Editor)
    ensures action.ChangePage? || action.ShowInputMethodPicker? || action.SendEnter? ==> r == e
  {
    match action
    case DeleteBackward => DeleteKey(e)
    case CommitCompound(first, second) => CommitText(e, [first, second], 2)
    case CommitLiteral(unit) => CommitText(e, [unit], 1)
    case _ => e
  }

  /** A run of keys may be split anywhere. */
  lemma {:induction false} RunPagesSplit(page: Page, a: seq<KeyAction>, b: seq<KeyAction>)
    ensures RunPages(page, a + b) == RunPages(RunPages(page, a), b)
    decreases |a|
  {
    if a == [] {
      assert a + b == b;
    } else {
      assert (a + b)[1..] == a[1..] + b;
      RunPagesSplit(NextPage(page, a[0]), a[1..], b);
    }
  }

  /**
   * SYMBOL is sticky and NORMAL stays NORMAL: no run of keys without a
   * page-control key leaves either page.
   */
  lemma {:induction false} StickyPagesSurviveKeys(page: Page, actions: seq<KeyAction>)
    requires page != Shift
    requires NoPageKeys(actions)
    ensures RunPages(page, actions) == page
    decreases |actions|
  {
    if actions != [] {
      assert !actions[0].ChangePage?;
      StickyPagesSurviveKeys(page, actions[1..]);
    }
  }

  /**
   * SHIFT is one-shot: whatever the first key after it is (delete, enter,
   * the picker, a commit) the page is NORMAL from then on until a
   * page-control key.
   */
  lemma ShiftLastsOneKey(actions: seq<KeyAction>)
    requires |actions| >= 1
    requires NoPageKeys(actions)
    ensures RunPages(Shift, actions) == Normal
  {
    assert !actions[0].ChangePage?;
    StickyPagesSurviveKeys(Normal, actions[1..]);
  }

  /**
   * After a run, the page is the one the last page-control key chose, except
   * that a chosen SHIFT is gone if any key followed it.
   */
  lemma LastPageKeyDecides(page: Page, actions: seq<KeyAction>, i: nat)
    requires i < |actions| && actions[i].ChangePage?
    requires NoPageKeys(actions[i + 1..])
    ensures RunPages(page, actions) ==
              if actions[i].page == Shift && i < |actions| - 1 then Normal else actions[i].page
  {
    var rest := actions[i + 1..];
    assert actions == actions[..i] + [actions[i]] + rest;
    RunPagesSplit(page, actions[..i] + [actions[i]], rest);
    RunPagesSplit(page, actions[..i], [actions[i]]);
    var q := actions[i].page;
    assert RunPages(page, actions[..i] + [actions[i]]) == q;
    if q == Shift && rest != [] {
      ShiftLastsOneKey(rest);
    } else if q != Shift {
      StickyPagesSurviveKeys(q, rest);
    }
  }

  /** Pressing the same key twice leaves the page where one press left it. */
  lemma NextPageIdempotent(page: Page, action: KeyAction)
    ensures NextPage(NextPage(page, action), action) == NextPage(page, action)
  {
  }

  /**
   * The commit keys insert exactly their units in place of the selection:
   * one for a literal, the pair (first, then second) for a compound, as a
   * single edit. A literal leaves the cursor right after it; the compound's
   * commitText(output, 2) puts it one unit further when text follows.
   */
  lemma CommitKeysInsertExactly(e: Editor, action: KeyAction)
    requires action.CommitLiteral? || action.CommitCompound?
    ensures var r := EditorAfter(e, action);
      var s := if action.CommitLiteral? then [action.unit] else [action.first, action.second];
      && r.text == e.text[..e.selStart] + s + e.text[e.selEnd..]
      && r.selStart == r.selEnd
      && (action.CommitLiteral? ==> r.selStart == e.selStart + 1)
      && (action.CommitCompound? ==>
            r.selStart == if e.selEnd < |e.text| then e.selStart + 3 else e.selStart + 2)
  {
  }
}
