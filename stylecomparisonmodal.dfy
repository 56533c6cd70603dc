/** components/StyleComparisonModal.tsx: the dialog that previews several
    styles side by side and asks the page for the previews it lacks. */
module StyleComparisonModal {
  import opened Types
  import opened StyleSet

  /** `!!previews[id]`: a preview is there and is not the empty string. */
  predicate HasPreview(previews: map<HeadshotStyle, string>, id: HeadshotStyle) {
    id in previews && previews[id] != ""
  }

  /** The styles `handleGenerateClick` asks for: the selected ones without a
      preview, in selection order. */
  function ToGenerate(selected: seq<HeadshotStyle>, previews: map<HeadshotStyle, string>): (r: seq<HeadshotStyle>)
    ensures forall s :: s in r <==> s in selected && !HasPreview(previews, s)
    ensures NoDuplicates(selected) ==> NoDuplicates(r)
    ensures |r| <= |selected|
  {
    if |selected| == 0 then []
    else
      var rest := ToGenerate(selected[1..], previews);
      assert NoDuplicates(selected) ==> selected[0] !in selected[1..] && NoDuplicates(selected[1..]);
      if HasPreview(previews, selected[0]) then rest else [selected[0]] + rest
  }

  /** Nothing is requested exactly when every selected style already has a
      preview. */
  lemma NothingToGenerate(selected: seq<HeadshotStyle>, previews: map<HeadshotStyle, string>)
    ensures ToGenerate(selected, previews) == [] <==> forall s :: s in selected ==> HasPreview(previews, s)
  {
    if ToGenerate(selected, previews) != [] {
      assert ToGenerate(selected, previews)[0] in ToGenerate(selected, previews);
    }
  }

  /** The count the generate button shows: the selected styles without a
      preview, counted one by one. */
  function CountWithoutPreview(selected: seq<HeadshotStyle>, previews: map<HeadshotStyle, string>): (n: nat)
    ensures n <= |selected|
  {
    if |selected| == 0 then 0
    else (if HasPreview(previews, selected[0]) then 0 else 1) + CountWithoutPreview(selected[1..], previews)
  }

  /** The button's count is the length of the list a click requests. */
  lemma {:induction false} CountMatchesRequest(selected: seq<HeadshotStyle>, previews: map<HeadshotStyle, string>)
    ensures CountWithoutPreview(selected, previews) == |ToGenerate(selected, previews)|
  {
    if |selected| > 0 {
      CountMatchesRequest(selected[1..], previews);
    }
  }

  /** The list of all 18 styles holds each once. */
  lemma AllStylesDistinct()
    ensures NoDuplicates(AllStyles) && |AllStyles| == 18
  {
    forall i, j | 0 <= i < j < |AllStyles|
      ensures AllStyles[i] != AllStyles[j]
    {
      OrdinalOfListed(i);
      OrdinalOfListed(j);
    }
  }

  class Modal {
    /** `selectedForCompare`, in insertion order. */
    var selected: seq<HeadshotStyle>

    ghost predicate Valid()
      reads this
    {
      NoDuplicates(selected)
    }

    constructor ()
      ensures Valid() && selected == []
    {
      selected := [];
    }

    /** `toggleStyle`: `id` joins or leaves the selection; no other style changes. */
    method ToggleStyle(id: HeadshotStyle)
      requires Valid()
      modifies this
      ensures Valid() && selected == Toggle(old(selected), id)
      ensures id in selected <==> id !in old(selected)
      ensures forall s :: s != id ==> (s in selected <==> s in old(selected))
    {
      selected := Toggle(selected, id);
    }

    /** `selectAll`: every style, in declaration order. */
    method SelectAll()
      requires Valid()
      modifies this
      ensures Valid() && selected == AllStyles
      ensures |selected| == 18 && forall s :: s in selected
    {
      AllStylesDistinct();
      selected := AllStyles;
      forall s ensures s in selected {
        AllStylesComplete(s);
      }
    }

    /** `clearSelection`. */
    method ClearSelection()
      requires Valid()
      modifies this
      ensures Valid() && selected == []
    {
      selected := [];
    }

    /** `handleGenerateClick`: the styles to ask previews for, or nothing
        when the list would be empty. The selection is left as it is. */
    method HandleGenerateClick(previews: map<HeadshotStyle, string>) returns (request: Option<seq<HeadshotStyle>>)
      requires Valid()
      ensures request.None? <==> forall s :: s in selected ==> HasPreview(previews, s)
      ensures request.Some? ==> request.value == ToGenerate(selected, previews) && |request.value| > 0
      ensures request.Some? ==> NoDuplicates(request.value)
      ensures request.Some? ==> forall s :: s in request.value <==> s in selected && !HasPreview(previews, s)
      ensures request.None? <==> NewCount(previews) == 0
      ensures request.Some? ==> |request.value| == NewCount(previews)
    {
      var toGenerate := ToGenerate(selected, previews);
      NothingToGenerate(selected, previews);
      if |toGenerate| > 0 {
        request := Some(toGenerate);
      } else {
        request := None;
      }
    }

    /** The generate button is disabled with nothing selected or no photo. */
    function GenerateDisabled(originalImage: Option<string>): bool
      reads this
    {
      |selected| == 0 || !Present(originalImage)
    }

    /** The count on the generate button. It is the number of previews a
        click asks for, and 0 exactly when every selected style has one. */
    function NewCount(previews: map<HeadshotStyle, string>): (n: nat)
      reads this
      ensures n == |ToGenerate(selected, previews)| && n <= |selected|
      ensures n == 0 <==> forall s :: s in selected ==> HasPreview(previews, s)
    {
      CountMatchesRequest(selected, previews);
      NothingToGenerate(selected, previews);
      CountWithoutPreview(selected, previews)
    }

    /** The button does not guard against a click that asks for nothing:
        with a photo and every selected style already previewed, it is
        enabled, shows a count of 0, and the click requests nothing. */
    lemma EnabledButNothingNew(originalImage: Option<string>, previews: map<HeadshotStyle, string>)
      requires Valid() && Present(originalImage) && |selected| > 0
      requires forall s :: s in selected ==> HasPreview(previews, s)
      ensures !GenerateDisabled(originalImage) && NewCount(previews) == 0
      ensures ToGenerate(selected, previews) == []
    {
      NothingToGenerate(selected, previews);
    }
  }
}
