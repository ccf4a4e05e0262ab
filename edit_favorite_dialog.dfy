/** The alias field of `EditFavoriteDialog`: it starts from the favorite's alias,
    and saving hands `onSave` the trimmed text, or no alias when only white space is
    left. */
module EditFavoriteDialog {
  import opened Wrappers
  import opened JsText
  import opened FavoritesStorage

  /** `alias.trim()`, then `null` when nothing is left. */
  function NormalizeAlias(text: string): (r: Option<string>)
    ensures r.None? <==> AllSpace(text)
    ensures r.Some? ==> r.value != [] && Trimmed(r.value) && |r.value| <= |text|
  {
    var t := Trim(text);
    if |t| > 0 then Some(t) else None
  }

  /** The text the field starts with: `favorite.alias || ""`. */
  function InitialText(alias: Option<string>): (text: string)
    ensures alias.Some? ==> text == alias.value
    ensures alias.None? ==> text == []
  {
    if alias.Some? && alias.value != "" then alias.value else ""
  }

  /** Padding a name with white space does not change the alias that is saved. */
  lemma NormalizeFramed(a: string, m: string, b: string)
    requires AllSpace(a) && AllSpace(b) && m != [] && Trimmed(m)
    ensures NormalizeAlias(a + m + b) == Some(m)
  {
    TrimOfFramed(a, m, b);
  }

  /** Reopening the dialog on a saved alias and saving it unchanged saves the same
      alias again. */
  lemma ReopenAndSaveIsStable(text: string)
    ensures NormalizeAlias(InitialText(NormalizeAlias(text))) == NormalizeAlias(text)
  {
    var r := NormalizeAlias(text);
    if r.Some? {
      assert [] + r.value + [] == r.value;
      NormalizeFramed([], r.value, []);
    }
  }

  /** Examples: blank input clears the alias; surrounding spaces are dropped. */
  lemma NormalizeExamples()
    ensures NormalizeAlias("   ") == None
    ensures NormalizeAlias(" 우리집 ") == Some("우리집")
  {
    assert AllSpace("   ");
    assert " 우리집 " == " " + "우리집" + " ";
    NormalizeFramed(" ", "우리집", " ");
  }

  class AliasEditor {
    /** The `alias` state: the field's current text. */
    var alias: string
    /** The values handed to `onSave`, oldest first. */
    var saved: seq<Option<string>>

    constructor (favorite: Favorite)
      ensures alias == InitialText(favorite.alias) && saved == []
    {
      alias := InitialText(favorite.alias);
      saved := [];
    }

    /** The input's `onChange`. */
    method SetAlias(text: string)
      modifies this
      ensures alias == text && saved == old(saved)
    {
      alias := text;
    }

    /** `handleSave`: the field's text, normalised, goes to `onSave`; the field
        keeps its text. */
    method HandleSave()
      modifies this
      ensures alias == old(alias)
      ensures saved == old(saved) + [NormalizeAlias(old(alias))]
    {
      var trimmed := Trim(alias);
      saved := saved + [if |trimmed| > 0 then Some(trimmed) else None];
    }

    /** `handleReset`: the field is emptied and `onSave` receives no alias. */
    method HandleReset()
      modifies this
      ensures alias == []
      ensures saved == old(saved) + [None]
    {
      alias := "";
      saved := saved + [None];
    }
  }
}
