/** components/PresetBuilder.tsx: the dialog that composes a named mix of
    styles, which the page then stores as a custom preset. */
module PresetBuilder {
  import opened Types
  import opened StyleSet
  import opened Text

  /** The condition `handleSave` checks: a name that is not blank and at
      least one style. */
  predicate SaveAccepted(name: string, selected: seq<HeadshotStyle>) {
    Trim(name) != "" && |selected| > 0
  }

  /** The condition under which the save button is enabled: a name that is
      not blank and at least two styles. */
  predicate SaveButtonEnabled(name: string, selected: seq<HeadshotStyle>) {
    Trim(name) != "" && |selected| >= 2
  }

  /** The button is stricter than the handler: a one-style mix passes the
      handler's check but cannot be saved through the dialog. */
  lemma ButtonStricterThanHandler()
    ensures forall name, selected :: SaveButtonEnabled(name, selected) ==> SaveAccepted(name, selected)
    ensures SaveAccepted("Mix", [Corporate]) && !SaveButtonEnabled("Mix", [Corporate])
  {
    assert !IsBlank("Mix") by { assert !IsTrimmable("Mix"[0]); }
    TrimEmptyIffBlank("Mix");
  }

  /** A blank name is refused, however many styles are chosen. */
  lemma BlankNameRefused(name: string, selected: seq<HeadshotStyle>)
    requires IsBlank(name)
    ensures !SaveAccepted(name, selected) && !SaveButtonEnabled(name, selected)
  {
    TrimEmptyIffBlank(name);
  }

  class Builder {
    var name: string
    /** `selectedStyles`, in insertion order. */
    var selected: seq<HeadshotStyle>

    ghost predicate Valid()
      reads this
    {
      NoDuplicates(selected)
    }

    constructor ()
      ensures Valid() && name == "" && selected == []
    {
      name, selected := "", [];
    }

    /** Typing in the name field. */
    method SetName(text: string)
      requires Valid()
      modifies this
      ensures Valid() && name == text && selected == old(selected)
    {
      name := text;
    }

    /** `toggleStyle`: `id` joins or leaves the mix; no other style changes. */
    method ToggleStyle(id: HeadshotStyle)
      requires Valid()
      modifies this
      ensures Valid() && name == old(name)
      ensures selected == Toggle(old(selected), id)
      ensures id in selected <==> id !in old(selected)
      ensures forall s :: s != id ==> (s in selected <==> s in old(selected))
    {
      selected := Toggle(selected, id);
    }

    /** `handleSave`: hand the name as typed and the styles in selection
        order to the page, then clear the dialog; refuse otherwise. */
    method HandleSave() returns (saved: Option<(string, seq<HeadshotStyle>)>)
      requires Valid()
      modifies this
      ensures Valid()
      ensures SaveAccepted(old(name), old(selected)) ==>
                saved == Some((old(name), old(selected))) && name == "" && selected == []
      ensures !SaveAccepted(old(name), old(selected)) ==>
                saved == None && name == old(name) && selected == old(selected)
    {
      if Trim(name) != "" && |selected| > 0 {
        saved := Some((name, selected));
        name := "";
        selected := [];
      } else {
        saved := None;
      }
    }

    /** A click on the save button: nothing while it is disabled. A mix
        saved this way has at least two distinct styles. */
    method ClickSave() returns (saved: Option<(string, seq<HeadshotStyle>)>)
      requires Valid()
      modifies this
      ensures Valid()
      ensures saved.Some? ==> |saved.value.1| >= 2 && NoDuplicates(saved.value.1) && Trim(saved.value.0) != ""
      ensures saved.Some? ==> saved == Some((old(name), old(selected))) && name == "" && selected == []
      ensures saved.None? ==> name == old(name) && selected == old(selected)
      ensures saved.Some? <==> SaveButtonEnabled(old(name), old(selected))
    {
      if SaveButtonEnabled(name, selected) {
        saved := HandleSave();
      } else {
        saved := None;
      }
    }
  }
}
