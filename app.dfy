/** The page component (App.tsx): the generation prompt, the page's
    generation record and the handlers that move it between states. */
module App {
  import opened Types
  import opened Constants
  import opened Text
  import opened Db
  import opened CreditContext
  import opened GeminiService

  // ---------------------------------------------------------------------
  // Prompt construction

  const HybridPrefix := "Transform this person into a hybrid style of "
  const BackgroundSuffix := " Ignore previous background details."
  const PreviewSuffix := " Close-up face, quick preview."
  const DefaultGenerateError := "Failed to generate headshot. Please try again."

  /** `presets.find(p => p.id === id)`: the first preset with that id. */
  function FindPreset(presets: seq<CustomPreset>, id: string): (r: Option<CustomPreset>)
    ensures r.Some? ==> r.value in presets && r.value.id == id
    ensures r.None? <==> forall p :: p in presets ==> p.id != id
  {
    if |presets| == 0 then None
    else if presets[0].id == id then Some(presets[0])
    else FindPreset(presets[1..], id)
  }

  /** `styles.map(s => STYLES[s].title)`. */
  function Titles(styles: seq<HeadshotStyle>): seq<string> {
    seq(|styles|, i requires 0 <= i < |styles| => Style(styles[i]).title)
  }

  /** `styles.map(s => STYLES[s].promptModifier)`. */
  function Modifiers(styles: seq<HeadshotStyle>): seq<string> {
    seq(|styles|, i requires 0 <= i < |styles| => Style(styles[i]).promptModifier)
  }

  /** The prompt of a style mix: the titles joined by " + ", then the
      modifiers joined by spaces. */
  function HybridPrompt(p: CustomPreset): string {
    HybridPrefix + Join(Titles(p.styles), " + ") + ". " + Join(Modifiers(p.styles), " ")
  }

  /** The base prompt: the mix of the selected preset when a preset id is
      set (and nothing when no preset has that id), otherwise the selected
      style's modifier. */
  function BasePrompt(style: HeadshotStyle, presetId: Option<string>, presets: seq<CustomPreset>): string {
    if Present(presetId) then
      match FindPreset(presets, presetId.value)
      case Some(p) => HybridPrompt(p)
      case None => ""
    else Style(style).promptModifier
  }

  /** The clause appended for the selected background: only when it is not
      `Original` and a listed configuration has a non-empty modifier. */
  function BackgroundClause(bg: BackgroundId): (r: string)
    ensures r == "" || (FindBackground(bg).Some? && r == " " + FindBackground(bg).value.promptModifier + BackgroundSuffix)
  {
    if bg == Original then ""
    else match FindBackground(bg)
      case Some(c) => if c.promptModifier != "" then " " + c.promptModifier + BackgroundSuffix else ""
      case None => ""
  }

  /** The prompt `handleGenerate` sends. */
  function GenerationPrompt(style: HeadshotStyle, presetId: Option<string>, presets: seq<CustomPreset>, bg: BackgroundId): string {
    BasePrompt(style, presetId, presets) + BackgroundClause(bg)
  }

  /** The prompt `handlePreview` sends. */
  function PreviewPrompt(style: HeadshotStyle): string {
    Style(style).promptModifier + PreviewSuffix
  }

  /** The style recorded with a saved project: `Corporate` stands in for
      any mix. */
  function HistoryStyle(style: HeadshotStyle, presetId: Option<string>): (s: HeadshotStyle)
    ensures Present(presetId) ==> s == Corporate
    ensures !Present(presetId) ==> s == style
  {
    if Present(presetId) then Corporate else style
  }

  /** `err.message || "Failed to generate headshot. Please try again."` */
  function ErrorText(message: string): (r: string)
    ensures r != ""
    ensures message != "" ==> r == message
    ensures message == "" ==> r == DefaultGenerateError
  {
    if message != "" then message else DefaultGenerateError
  }

  /** Without a selected preset the prompt is the style's modifier followed
      by the background clause. */
  lemma PromptWithoutPreset(style: HeadshotStyle, presetId: Option<string>, presets: seq<CustomPreset>, bg: BackgroundId)
    requires !Present(presetId)
    ensures GenerationPrompt(style, presetId, presets, bg) == Style(style).promptModifier + BackgroundClause(bg)
  {
  }

  /** With a selected preset, the first preset carrying that id supplies
      the mix, whatever the selected style. */
  lemma {:induction false} PromptFromPreset(style: HeadshotStyle, presets: seq<CustomPreset>, i: nat, bg: BackgroundId)
    requires i < |presets| && presets[i].id != ""
    requires forall j :: 0 <= j < i ==> presets[j].id != presets[i].id
    ensures GenerationPrompt(style, Some(presets[i].id), presets, bg) == HybridPrompt(presets[i]) + BackgroundClause(bg)
  {
    FirstPresetFound(presets, i);
  }

  lemma {:induction false} FirstPresetFound(presets: seq<CustomPreset>, i: nat)
    requires i < |presets|
    requires forall j :: 0 <= j < i ==> presets[j].id != presets[i].id
    ensures FindPreset(presets, presets[i].id) == Some(presets[i])
  {
    if i > 0 {
      assert presets[0].id != presets[i].id;
      FirstPresetFound(presets[1..], i - 1);
    }
  }

  /** A selected preset id that no preset carries leaves the base prompt
      empty: only the background clause is sent. */
  lemma PromptWithMissingPreset(style: HeadshotStyle, id: string, presets: seq<CustomPreset>, bg: BackgroundId)
    requires id != ""
    requires forall p :: p in presets ==> p.id != id
    ensures GenerationPrompt(style, Some(id), presets, bg) == BackgroundClause(bg)
  {
    assert FindPreset(presets, id).None?;
    var clause := BackgroundClause(bg);
    assert GenerationPrompt(style, Some(id), presets, bg) == "" + clause;
    assert "" + clause == clause;
  }

  /** The base prompt is empty exactly when a preset id is selected that no
      preset carries. */
  lemma BasePromptEmptyIffMissing(style: HeadshotStyle, presetId: Option<string>, presets: seq<CustomPreset>)
    ensures BasePrompt(style, presetId, presets) == ""
        <==> Present(presetId) && forall p :: p in presets ==> p.id != presetId.value
  {
    if Present(presetId) && FindPreset(presets, presetId.value).Some? {
      assert |HybridPrompt(FindPreset(presets, presetId.value).value)| >= |HybridPrefix|;
    }
  }

  /** The background clause is appended exactly for the backgrounds other
      than `Original` that have an entry, i.e. all but `Original` and
      `GradientLux`; it then carries that entry's modifier. */
  lemma BackgroundClauseIff(bg: BackgroundId)
    ensures BackgroundClause(bg) != "" <==> bg != Original && bg != GradientLux
    ensures BackgroundClause(bg) != "" ==> BackgroundClause(bg) == " " + FindBackground(bg).value.promptModifier + BackgroundSuffix
  {
    if bg == GradientLux {
      GradientLuxIsMissing();
    } else if bg != Original {
      OtherBackgroundsAreListed(bg);
      ListedBackgroundsHaveModifiers(bg);
    }
  }

  /** The preview prompt is the style's (non-empty) modifier followed by the
      close-up request. */
  lemma PreviewPromptShape(style: HeadshotStyle)
    ensures var m := Style(style).promptModifier;
            var r := PreviewPrompt(style);
            m != "" && |r| == |m| + |PreviewSuffix| && r[..|m|] == m && r[|m|..] == PreviewSuffix
  {
  }

  /** A mix of two styles names both titles, then both modifiers. */
  lemma TwoStyleMix(p: CustomPreset, a: HeadshotStyle, b: HeadshotStyle)
    requires p.styles == [a, b]
    ensures HybridPrompt(p) == HybridPrefix + Style(a).title + " + " + Style(b).title + ". "
                               + Style(a).promptModifier + " " + Style(b).promptModifier
  {
    var ts, ms := Titles(p.styles), Modifiers(p.styles);
    assert ts == [Style(a).title, Style(b).title];
    assert ms == [Style(a).promptModifier, Style(b).promptModifier];
    JoinTwo(ts, " + ");
    JoinTwo(ms, " ");
    Regroup(HybridPrefix, ts[0], ts[1], ms[0], ms[1]);
  }

  lemma Regroup(prefix: string, ta: string, tb: string, ma: string, mb: string)
    ensures prefix + (ta + " + " + tb) + ". " + (ma + " " + mb) == prefix + ta + " + " + tb + ". " + ma + " " + mb
  {
  }

  // ---------------------------------------------------------------------
  // The generation record's transitions (the `setState` updaters)

  const EmptyState := GenerationState(None, None, None, false, None)

  /** `handleImageSelect`'s update. */
  function ImageSelected(s: GenerationState, image: string): GenerationState {
    s.(originalImage := Some(image), generatedImage := None, generatedVideo := None, error := None)
  }

  /** The update on entry to `handleGenerate`. */
  function Generating(s: GenerationState): GenerationState {
    s.(isGenerating := true, error := None, generatedVideo := None)
  }

  /** The update after a generated image arrives. */
  function Succeeded(s: GenerationState, image: string): GenerationState {
    s.(generatedImage := Some(image), isGenerating := false)
  }

  /** The update in the `catch` block. */
  function Failed(s: GenerationState, message: string): GenerationState {
    s.(isGenerating := false, error := Some(ErrorText(message)))
  }

  /** `loadFromHistory`'s record. */
  function Restored(p: Project): GenerationState {
    GenerationState(Some(p.originalImage), Some(p.generatedImage), None, false, None)
  }

  /** The history record written after a successful generation. */
  function SavedProject(now: int, style: HeadshotStyle, presetId: Option<string>, original: string, image: string): (p: Project)
    ensures p.id.None? && p.generatedVideo.None?
  {
    Project(None, now, HistoryStyle(style, presetId), original, image, None)
  }

  /** A generation ends idle either way: on success with the new image and
      no error, on failure with an error and the previous image kept. */
  lemma GenerationEndsIdle(s: GenerationState, image: string, message: string)
    ensures var ok := Succeeded(Generating(s), image);
            !ok.isGenerating && ok.generatedImage == Some(image) && ok.error.None? && ok.originalImage == s.originalImage
    ensures var bad := Failed(Generating(s), message);
            !bad.isGenerating && bad.error.Some? && bad.error.value != "" && bad.generatedImage == s.generatedImage
            && bad.originalImage == s.originalImage
  {
  }

  /** A failed generation shows the rejection's message, or the default
      message for a rejection without one (the photo failing to load). */
  lemma FailureMessageShown(s: GenerationState, apiKey: string, message: string, response: Option<seq<Part>>)
    requires apiKey != ""
    ensures Failed(Generating(s), HeadshotOutcome(apiKey, Some(message), response).error).error
              == Some(if message == "" then DefaultGenerateError else message)
  {
  }

  /** Loading back the record a successful generation saved restores the
      page's record exactly as that generation left it. */
  lemma HistoryRestoresGeneration(s: GenerationState, now: int, style: HeadshotStyle, presetId: Option<string>, image: string)
    requires s.originalImage.Some?
    ensures Restored(SavedProject(now, style, presetId, s.originalImage.value, image)) == Succeeded(Generating(s), image)
  {
  }

  // ---------------------------------------------------------------------
  // The secret admin toggle

  /** `handleTitleClick`'s counter update: the fifth click toggles admin and
      starts over. */
  function ClickCount(c: nat): (r: nat)
    requires c <= 4
    ensures r <= 4
    ensures r == (c + 1) % 5
  {
    if c + 1 >= 5 then 0 else c + 1
  }

  /** The count and the number of admin toggles after `n` clicks. */
  function AfterClicks(c: nat, n: nat): (r: (nat, nat))
    requires c <= 4
    ensures r.0 <= 4
  {
    if n == 0 then (c, 0)
    else
      var (k, t) := AfterClicks(c, n - 1);
      (ClickCount(k), if k == 4 then t + 1 else t)
  }

  /** From a fresh page, `n` clicks toggle admin `n / 5` times and leave the
      count at `n % 5`. */
  lemma {:induction false} ClicksFromZero(n: nat)
    ensures AfterClicks(0, n) == (n % 5, n / 5)
  {
    if n > 0 {
      ClicksFromZero(n - 1);
    }
  }

  // ---------------------------------------------------------------------
  // The page

  class Page {
    var selectedStyle: HeadshotStyle
    var selectedBackground: BackgroundId
    var state: GenerationState
    var previews: map<HeadshotStyle, string>
    var previewLoading: map<HeadshotStyle, bool>
    var showHistory: bool
    var projects: seq<Project>
    var presets: seq<CustomPreset>
    var selectedPresetId: Option<string>
    var adminClickCount: nat
    /** The browser database. */
    const db: Database
    /** The credit context the page reads and toggles. */
    const credits: CreditProvider

    ghost predicate Valid()
      reads this, db, credits
    {
      && credits.db == db
      && credits.Valid()
      && adminClickCount <= 4
    }

    /** The page's initial state, before the mount effect runs. */
    constructor (db: Database, credits: CreditProvider)
      requires credits.db == db && credits.Valid()
      ensures Valid() && this.db == db && this.credits == credits
      ensures selectedStyle == Corporate && selectedBackground == Original
      ensures state == EmptyState && previews == map[] && previewLoading == map[]
      ensures !showHistory && projects == [] && presets == [] && selectedPresetId == None
      ensures adminClickCount == 0
    {
      this.db, this.credits := db, credits;
      selectedStyle, selectedBackground := Corporate, Original;
      state, previews, previewLoading := EmptyState, map[], map[];
      showHistory, projects, presets, selectedPresetId := false, [], [], None;
      adminClickCount := 0;
    }

    /** `loadProjects`: the history, newest first. */
    method LoadProjects()
      requires Valid()
      modifies this
      ensures Valid()
      ensures projects == Reverse(db.AllProjects()) && NewestFirst(projects)
      ensures forall p :: p in projects <==> p in db.projects.Values
      ensures state == old(state) && presets == old(presets) && selectedPresetId == old(selectedPresetId)
      ensures selectedStyle == old(selectedStyle) && selectedBackground == old(selectedBackground)
      ensures previews == old(previews) && previewLoading == old(previewLoading)
      ensures showHistory == old(showHistory) && adminClickCount == old(adminClickCount)
    {
      projects := db.GetProjects();
    }

    /** `loadPresets`: the stored presets, and the first of them selected
        when there is one. */
    method LoadPresets()
      requires Valid()
      modifies this
      ensures Valid()
      ensures forall i :: 0 <= i < |presets| ==> presets[i].id in db.presets && db.presets[presets[i].id] == presets[i]
      ensures forall k :: k in db.presets ==> exists i :: 0 <= i < |presets| && presets[i].id == k
      ensures forall i, j :: 0 <= i < j < |presets| ==> KeyLess(presets[j].id, presets[i].id)
      ensures |presets| > 0 ==> selectedPresetId == Some(presets[0].id)
      ensures |presets| == 0 ==> selectedPresetId == old(selectedPresetId)
      ensures state == old(state) && projects == old(projects)
      ensures selectedStyle == old(selectedStyle) && selectedBackground == old(selectedBackground)
      ensures previews == old(previews) && previewLoading == old(previewLoading)
      ensures showHistory == old(showHistory) && adminClickCount == old(adminClickCount)
    {
      presets := db.GetPresets();
      if |presets| > 0 {
        selectedPresetId := Some(presets[0].id);
      }
    }

    /** `handleTitleClick`: count the click, toggle admin on the fifth, and
        reset the page. */
    method HandleTitleClick()
      requires Valid()
      modifies this, db, credits
      ensures Valid()
      ensures adminClickCount == ClickCount(old(adminClickCount))
      ensures old(adminClickCount) == 4 && old(credits.profile).Some? ==>
                    credits.profile == Some(ToggledAdmin(old(credits.profile).value))
      ensures old(adminClickCount) < 4 || old(credits.profile).None? ==>
                    credits.profile == old(credits.profile) && db.profiles == old(db.profiles)
      ensures old(adminClickCount) == 4 && old(credits.profile).Some? ==>
                    db.profiles == old(db.profiles)[old(credits.profile).value.id := credits.profile.value]
      ensures credits.isLoading == old(credits.isLoading)
      ensures state == EmptyState && previews == map[] && previewLoading == map[]
      ensures db.projects == old(db.projects) && db.nextProjectKey == old(db.nextProjectKey) && db.presets == old(db.presets)
      ensures projects == old(projects) && presets == old(presets) && selectedPresetId == old(selectedPresetId)
      ensures selectedStyle == old(selectedStyle) && selectedBackground == old(selectedBackground)
      ensures showHistory == old(showHistory)
    {
      var next := adminClickCount + 1;
      if next >= 5 {
        credits.ToggleAdmin();
        adminClickCount := 0;
      } else {
        adminClickCount := next;
      }
      Reset();
    }

    /** `handleImageSelect`: a new original image, no results, no previews. */
    method HandleImageSelect(image: string)
      requires Valid()
      modifies this
      ensures Valid()
      ensures state == ImageSelected(old(state), image)
      ensures previews == map[] && previewLoading == map[]
      ensures selectedStyle == old(selectedStyle) && selectedBackground == old(selectedBackground)
      ensures projects == old(projects) && presets == old(presets) && selectedPresetId == old(selectedPresetId)
      ensures showHistory == old(showHistory) && adminClickCount == old(adminClickCount)
    {
      state := ImageSelected(state, image);
      previews, previewLoading := map[], map[];
    }

    /** `handlePreview`: without an original image nothing happens;
        otherwise the style's preview is requested with the preview prompt,
        which is returned. */
    method HandlePreview(style: HeadshotStyle, apiKey: string, failure: Option<string>, response: Option<seq<Part>>) returns (prompt: Option<string>)
      requires Valid()
      modifies this
      ensures Valid()
      ensures !Present(old(state.originalImage)) ==> prompt == None && previews == old(previews) && previewLoading == old(previewLoading)
      ensures Present(old(state.originalImage)) ==> prompt == Some(PreviewPrompt(style))
      ensures Present(old(state.originalImage)) ==> previewLoading == old(previewLoading)[style := false]
      ensures Present(old(state.originalImage)) && HeadshotOutcome(apiKey, failure, response).Ok? ==>
                previews == old(previews)[style := HeadshotOutcome(apiKey, failure, response).value]
      ensures HeadshotOutcome(apiKey, failure, response).Err? ==> previews == old(previews)
      ensures state == old(state) && projects == old(projects) && presets == old(presets)
      ensures selectedStyle == old(selectedStyle) && selectedBackground == old(selectedBackground)
      ensures selectedPresetId == old(selectedPresetId)
      ensures showHistory == old(showHistory) && adminClickCount == old(adminClickCount)
    {
      if !Present(state.originalImage) {
        return None;
      }
      prompt := Some(PreviewPrompt(style));
      RunPreview(style, HeadshotOutcome(apiKey, failure, response));
    }

    /** The preview request in flight: the style is marked loading, its
        preview stored on success, and the mark cleared either way. */
    method RunPreview(style: HeadshotStyle, outcome: Result<string, string>)
      requires Valid()
      modifies this
      ensures Valid()
      ensures previewLoading == old(previewLoading)[style := false]
      ensures outcome.Ok? ==> previews == old(previews)[style := outcome.value]
      ensures outcome.Err? ==> previews == old(previews)
      ensures state == old(state) && projects == old(projects) && presets == old(presets)
      ensures selectedStyle == old(selectedStyle) && selectedBackground == old(selectedBackground)
      ensures selectedPresetId == old(selectedPresetId)
      ensures showHistory == old(showHistory) && adminClickCount == old(adminClickCount)
    {
      previewLoading := previewLoading[style := true];
      if outcome.Ok? {
        previews := previews[style := outcome.value];
      }
      previewLoading := previewLoading[style := false];
    }

    /** `handleGenerate`: without an original image nothing happens;
        otherwise the prompt is built and sent (and returned), and the
        record ends idle with either the new image, which is saved to the
        history and heads the reloaded list, or an error. */
    method HandleGenerate(apiKey: string, failure: Option<string>, response: Option<seq<Part>>, now: int) returns (prompt: Option<string>)
      requires Valid()
      modifies this, db
      ensures Valid()
      ensures !Present(old(state.originalImage)) ==> prompt == None && state == old(state) && projects == old(projects)
      ensures Present(old(state.originalImage)) ==>
                prompt == Some(GenerationPrompt(selectedStyle, selectedPresetId, presets, selectedBackground))
      ensures Present(old(state.originalImage)) && HeadshotOutcome(apiKey, failure, response).Ok? ==>
                var image := HeadshotOutcome(apiKey, failure, response).value;
                var saved := SavedProject(now, selectedStyle, selectedPresetId, old(state.originalImage).value, image);
                && state == Succeeded(Generating(old(state)), image)
                && db.projects == old(db.projects)[old(db.nextProjectKey) := saved.(id := Some(old(db.nextProjectKey)))]
                && db.nextProjectKey == old(db.nextProjectKey) + 1
                && projects == [saved.(id := Some(old(db.nextProjectKey)))] + old(Reverse(db.AllProjects()))
      ensures Present(old(state.originalImage)) && HeadshotOutcome(apiKey, failure, response).Err? ==>
                state == Failed(Generating(old(state)), HeadshotOutcome(apiKey, failure, response).error) && projects == old(projects)
      ensures !(Present(old(state.originalImage)) && HeadshotOutcome(apiKey, failure, response).Ok?) ==>
                db.projects == old(db.projects) && db.nextProjectKey == old(db.nextProjectKey)
      ensures db.presets == old(db.presets) && db.profiles == old(db.profiles)
      ensures presets == old(presets) && selectedPresetId == old(selectedPresetId)
      ensures selectedStyle == old(selectedStyle) && selectedBackground == old(selectedBackground)
      ensures previews == old(previews) && previewLoading == old(previewLoading)
      ensures showHistory == old(showHistory) && adminClickCount == old(adminClickCount)
    {
      if !Present(state.originalImage) {
        return None;
      }
      prompt := Some(GenerationPrompt(selectedStyle, selectedPresetId, presets, selectedBackground));
      RunGeneration(HeadshotOutcome(apiKey, failure, response), now);
    }

    /** The generation in flight: the record is marked generating, then
        ends idle with the image (saved and listed first) or the error. */
    method RunGeneration(outcome: Result<string, string>, now: int)
      requires Valid() && Present(state.originalImage)
      modifies this, db
      ensures Valid()
      ensures outcome.Ok? ==>
                var saved := SavedProject(now, selectedStyle, selectedPresetId, old(state.originalImage).value, outcome.value);
                && state == Succeeded(Generating(old(state)), outcome.value)
                && db.projects == old(db.projects)[old(db.nextProjectKey) := saved.(id := Some(old(db.nextProjectKey)))]
                && db.nextProjectKey == old(db.nextProjectKey) + 1
                && projects == [saved.(id := Some(old(db.nextProjectKey)))] + old(Reverse(db.AllProjects()))
      ensures outcome.Err? ==>
                && state == Failed(Generating(old(state)), outcome.error) && projects == old(projects)
                && db.projects == old(db.projects) && db.nextProjectKey == old(db.nextProjectKey)
      ensures db.presets == old(db.presets) && db.profiles == old(db.profiles)
      ensures presets == old(presets) && selectedPresetId == old(selectedPresetId)
      ensures selectedStyle == old(selectedStyle) && selectedBackground == old(selectedBackground)
      ensures previews == old(previews) && previewLoading == old(previewLoading)
      ensures showHistory == old(showHistory) && adminClickCount == old(adminClickCount)
    {
      var original := state.originalImage.value;
      state := Generating(state);
      if outcome.Ok? {
        state := Succeeded(state, outcome.value);
        ghost var before := db.projects;
        ghost var next := db.nextProjectKey;
        var saved := SavedProject(now, selectedStyle, selectedPresetId, original, outcome.value);
        var id := db.SaveProject(saved);
        NewestProjectFirst(before, next, saved.(id := Some(id)));
        LoadProjects();
      } else {
        state := Failed(state, outcome.error);
      }
    }

    /** `reset`: the empty record and no previews. */
    method Reset()
      requires Valid()
      modifies this
      ensures Valid()
      ensures state == EmptyState && previews == map[] && previewLoading == map[]
      ensures selectedStyle == old(selectedStyle) && selectedBackground == old(selectedBackground)
      ensures projects == old(projects) && presets == old(presets) && selectedPresetId == old(selectedPresetId)
      ensures showHistory == old(showHistory) && adminClickCount == old(adminClickCount)
    {
      state := EmptyState;
      previews, previewLoading := map[], map[];
    }

    /** `loadFromHistory`: the project's images, its style selected and the
        history closed. */
    method LoadFromHistory(p: Project)
      requires Valid()
      modifies this
      ensures Valid()
      ensures state == Restored(p) && selectedStyle == p.style && !showHistory
      ensures selectedBackground == old(selectedBackground)
      ensures previews == old(previews) && previewLoading == old(previewLoading)
      ensures projects == old(projects) && presets == old(presets) && selectedPresetId == old(selectedPresetId)
      ensures adminClickCount == old(adminClickCount)
    {
      state := Restored(p);
      selectedStyle := p.style;
      showHistory := false;
    }

    /** `handleDeleteProject`: delete the record and reload the history,
        which then no longer lists it. */
    method HandleDeleteProject(id: nat)
      requires Valid()
      modifies this, db
      ensures Valid()
      ensures db.projects == old(db.projects) - {id}
      ensures projects == Reverse(db.AllProjects())
      ensures id in old(db.projects) ==> old(db.projects)[id] !in projects
      ensures db.nextProjectKey == old(db.nextProjectKey)
      ensures db.presets == old(db.presets) && db.profiles == old(db.profiles)
      ensures state == old(state) && presets == old(presets) && selectedPresetId == old(selectedPresetId)
      ensures selectedStyle == old(selectedStyle) && selectedBackground == old(selectedBackground)
      ensures previews == old(previews) && previewLoading == old(previewLoading)
      ensures showHistory == old(showHistory) && adminClickCount == old(adminClickCount)
    {
      ghost var before := db.projects;
      db.DeleteProject(id);
      if id in before {
        DeletedProjectNotListed(before, db.nextProjectKey, id);
      }
      LoadProjects();
    }

    /** `handleSavePreset`, with the generated UUID and the clock as
        parameters: store the preset, reload the list and select its first
        entry, which is the preset with the greatest id and not necessarily
        the one just saved. */
    method HandleSavePreset(id: string, name: string, styles: seq<HeadshotStyle>, now: int)
      requires Valid()
      modifies this, db
      ensures Valid()
      ensures db.presets == old(db.presets)[id := CustomPreset(id, name, styles, now)]
      ensures exists i :: 0 <= i < |presets| && presets[i] == CustomPreset(id, name, styles, now)
      ensures forall i :: 0 <= i < |presets| ==> presets[i].id in db.presets && db.presets[presets[i].id] == presets[i]
      ensures forall k :: k in db.presets ==> exists i :: 0 <= i < |presets| && presets[i].id == k
      ensures forall i, j :: 0 <= i < j < |presets| ==> KeyLess(presets[j].id, presets[i].id)
      ensures |presets| > 0 && selectedPresetId == Some(presets[0].id)
      ensures forall k :: k in db.presets && k != presets[0].id ==> KeyLess(k, presets[0].id)
      ensures db.projects == old(db.projects) && db.nextProjectKey == old(db.nextProjectKey) && db.profiles == old(db.profiles)
      ensures state == old(state) && projects == old(projects)
      ensures selectedStyle == old(selectedStyle) && selectedBackground == old(selectedBackground)
      ensures previews == old(previews) && previewLoading == old(previewLoading)
      ensures showHistory == old(showHistory) && adminClickCount == old(adminClickCount)
    {
      var preset := CustomPreset(id, name, styles, now);
      var _ := db.SavePreset(preset);
      LoadPresets();
      assert id in db.presets;
      forall k | k in db.presets && k != presets[0].id
        ensures KeyLess(k, presets[0].id)
      {
        var i :| 0 <= i < |presets| && presets[i].id == k;
        assert i != 0;
      }
    }
  }
}
