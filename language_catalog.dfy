/**
 * loadLanguages: reading the `languages` array resource into the parallel
 * lists of names and layout ids. Loading is all-or-throw: an entry that
 * lacks its own typed array, its name or any of its three layout ids raises
 * IllegalStateException.
 */
module LanguageCatalog {
  import opened Wrappers

  /** What getResourceId returns for a missing resource. */
  const NO_RESOURCE: int := -1

  /**
   * Item i of the `languages` array: the id of its own typed array and, read
   * from that array, the name at index 0 (null if absent) and the layout ids
   * at RES_IDX, SHIFT_IDX and SYM_IDX.
   */
  datatype LanguageResource = LanguageResource(
    id: int, name: Option<string>, normal: int, shift: int, symbol: int)

  /** A loaded language: its name and its NORMAL, SHIFT and SYMBOL layouts. */
  datatype Language = Language(name: string, normal: int, shift: int, symbol: int)

  /** The two IllegalStateException messages. */
  datatype LoadError =
    | InvalidLanguageArray    // "Invalid language array resource"
    | IncompleteLanguage      // "Make sure the arrays resources contain name, xml, and shift xml"

  /** An entry loadLanguages accepts. */
  predicate Complete(r: LanguageResource)
  {
    r.id != NO_RESOURCE && r.name.Some?
    && r.normal != NO_RESOURCE && r.shift != NO_RESOURCE && r.symbol != NO_RESOURCE
  }

  /** The exception an entry raises; the array id is checked first. */
  function ErrorOf(r: LanguageResource): (e: LoadError)
    requires !Complete(r)
    ensures e == InvalidLanguageArray <==> r.id == NO_RESOURCE
    ensures e == IncompleteLanguage ==>
              r.name.None? || r.normal == NO_RESOURCE || r.shift == NO_RESOURCE || r.symbol == NO_RESOURCE
  {
    if r.id == NO_RESOURCE then InvalidLanguageArray else IncompleteLanguage
  }

  function ToLanguage(r: LanguageResource): Language
    requires Complete(r)
  {
    Language(r.name.value, r.normal, r.shift, r.symbol)
  }

  /** The position of the first entry that throws, or |rs| when none does. */
  function FirstIncomplete(rs: seq<LanguageResource>): (i: nat)
    ensures i <= |rs|
    ensures forall j :: 0 <= j < i ==> Complete(rs[j])
    ensures i < |rs| ==> !Complete(rs[i])
    decreases |rs|
  {
    if rs == [] then 0
    else if !Complete(rs[0]) then 0
    else 1 + FirstIncomplete(rs[1..])
  }

  /**
   * The languages the loop appends before it stops: one per entry before the
   * first throwing one, each that entry's name and layouts, in order.
   */
  function LoadedPrefix(rs: seq<LanguageResource>): (ls: seq<Language>)
    ensures |ls| == FirstIncomplete(rs) <= |rs|
    ensures forall j :: 0 <= j < |ls| ==> Complete(rs[j]) && ls[j] == ToLanguage(rs[j])
  {
    var m := FirstIncomplete(rs);
    seq(m, j requires 0 <= j < m => ToLanguage(rs[j]))
  }

  /**
   * The whole load, entry by entry: every language in resource order, or
   * the exception of the first entry that throws.
   */
  function Load(rs: seq<LanguageResource>): (r: Result<seq<Language>, LoadError>)
    ensures r.Success? <==> forall j :: 0 <= j < |rs| ==> Complete(rs[j])
    ensures r.Success? ==> r.value == LoadedPrefix(rs) && |r.value| == |rs|
    ensures r.Failure? ==> FirstIncomplete(rs) < |rs| && r.error == ErrorOf(rs[FirstIncomplete(rs)])
    decreases |rs|
  {
    if rs == [] then Success([])
    else if !Complete(rs[0]) then Failure(ErrorOf(rs[0]))
    else
      match Load(rs[1..])
      case Success(ls) => Success([ToLanguage(rs[0])] + ls)
      case Failure(e) => Failure(e)
  }

  /** The four lists loadLanguages fills. */
  function Names(ls: seq<Language>): seq<string>
  {
    seq(|ls|, j requires 0 <= j < |ls| => ls[j].name)
  }

  function NormalIds(ls: seq<Language>): seq<int>
  {
    seq(|ls|, j requires 0 <= j < |ls| => ls[j].normal)
  }

  function ShiftIds(ls: seq<Language>): seq<int>
  {
    seq(|ls|, j requires 0 <= j < |ls| => ls[j].shift)
  }

  function SymbolIds(ls: seq<Language>): seq<int>
  {
    seq(|ls|, j requires 0 <= j < |ls| => ls[j].symbol)
  }

  /**
   * A successful load yields four lists as long as the resource array,
   * whose i-th elements are the i-th entry's name and layout ids.
   */
  lemma LoadYieldsParallelLists(rs: seq<LanguageResource>)
    requires Load(rs).Success?
    ensures var ls := Load(rs).value;
      && |Names(ls)| == |NormalIds(ls)| == |ShiftIds(ls)| == |SymbolIds(ls)| == |rs|
      && forall j :: 0 <= j < |rs| ==>
           && Complete(rs[j])
           && Names(ls)[j] == rs[j].name.value
           && NormalIds(ls)[j] == rs[j].normal
           && ShiftIds(ls)[j] == rs[j].shift
           && SymbolIds(ls)[j] == rs[j].symbol
  {
  }

  /** One entry without a symbol layout makes the whole load throw. */
  lemma MissingSymbolLayoutFails(rs: seq<LanguageResource>, j: nat)
    requires j < |rs| && rs[j].symbol == NO_RESOURCE
    ensures Load(rs) == Failure(ErrorOf(rs[FirstIncomplete(rs)]))
  {
    assert !Complete(rs[j]);
  }

  /** Appending one more accepted entry extends every list by that entry's value. */
  lemma ListsGrow(ls: seq<Language>, l: Language)
    ensures Names(ls + [l]) == Names(ls) + [l.name]
    ensures NormalIds(ls + [l]) == NormalIds(ls) + [l.normal]
    ensures ShiftIds(ls + [l]) == ShiftIds(ls) + [l.shift]
    ensures SymbolIds(ls + [l]) == SymbolIds(ls) + [l.symbol]
  {
  }

  /** Below the first failure, the loaded prefix grows by one language per entry. */
  lemma LoadedPrefixGrows(rs: seq<LanguageResource>, i: nat)
    requires i < FirstIncomplete(rs)
    ensures LoadedPrefix(rs)[..i + 1] == LoadedPrefix(rs)[..i] + [ToLanguage(rs[i])]
  {
  }
}
