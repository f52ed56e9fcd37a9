/**
 * The application's record logic: the saved-idea list (toggle and remove by id), the refinement
 * of one variation's image in the current concept, and the reset of the personalised journey.
 */
module Concepts {
  import opened Wrappers
  import Seqs

  datatype Symbol = Symbol(symbol: string, meaning: string)

  datatype Variation = Variation(styleName: string, shortDescription: string, imagePrompt: string, image: string)

  /** One question and its answer (an interview entry, or a turn of the journey). */
  datatype Turn = Turn(q: string, a: string)

  datatype SafetyFlags = SafetyFlags(containsPersonalIdentifiers: bool, moderationReason: Option<string>)

  datatype Concept = Concept(
    id: string,
    conceptName: string,
    summary: string,
    meaningAndSymbols: seq<Symbol>,
    variations: seq<Variation>,
    artistPrompt: string,
    placementSuggestions: seq<string>,
    colorPaletteHint: Option<seq<string>>,
    interview: seq<Turn>,
    safetyFlags: SafetyFlags)

  /** `saved.some(idea => idea.id === id)`: what the result card shows as "saved". */
  predicate IsSaved(saved: seq<Concept>, id: string)
  {
    exists i :: 0 <= i < |saved| && saved[i].id == id
  }

  /** The keep-predicate of `idea => idea.id !== id`. */
  function OtherThan(id: string): Concept -> bool
  {
    (c: Concept) => c.id != id
  }

  /** `saved.filter(idea => idea.id !== id)`. */
  function RemoveSaved(saved: seq<Concept>, id: string): (r: seq<Concept>)
    ensures !IsSaved(r, id)
    ensures forall k :: 0 <= k < |r| ==> r[k] in saved
    ensures forall k :: 0 <= k < |saved| && saved[k].id != id ==> saved[k] in r
    ensures !IsSaved(saved, id) ==> r == saved
    ensures multiset(r) <= multiset(saved)
  {
    if !IsSaved(saved, id) then
      Seqs.FilterKeepsAll(saved, OtherThan(id));
      Seqs.Filter(saved, OtherThan(id))
    else
      Seqs.Filter(saved, OtherThan(id))
  }

  /** Each idea with another id stays exactly as often as it was saved; ideas with the id are gone. */
  lemma RemoveSavedCount(saved: seq<Concept>, id: string, c: Concept)
    ensures multiset(RemoveSaved(saved, id))[c] == if c.id != id then multiset(saved)[c] else 0
  {
    Seqs.FilterCount(saved, OtherThan(id), c);
  }

  /** Removing an id keeps every other saved idea in its relative order. */
  lemma RemoveSavedKeepsOrder(saved: seq<Concept>, id: string, i: int, j: int)
    requires 0 <= i < j < |saved| && saved[i].id != id && saved[j].id != id
    ensures |RemoveSaved(saved[..i], id)| < |RemoveSaved(saved[..j], id)| < |RemoveSaved(saved, id)|
    ensures RemoveSaved(saved, id)[|RemoveSaved(saved[..i], id)|] == saved[i]
    ensures RemoveSaved(saved, id)[|RemoveSaved(saved[..j], id)|] == saved[j]
  {
    Seqs.FilterPreservesOrder(saved, OtherThan(id), i, j);
  }

  /**
   * The save button's toggle: a concept whose id is saved is unsaved (every entry with that id
   * goes), otherwise it is appended after the existing entries.
   */
  function ToggleSaved(saved: seq<Concept>, c: Concept): (r: seq<Concept>)
    ensures IsSaved(r, c.id) <==> !IsSaved(saved, c.id)
    ensures IsSaved(saved, c.id) ==> r == RemoveSaved(saved, c.id)
    ensures !IsSaved(saved, c.id) ==> |r| == |saved| + 1 && r[..|saved|] == saved && r[|saved|] == c
  {
    if IsSaved(saved, c.id) then
      RemoveSaved(saved, c.id)
    else
      assert (saved + [c])[|saved|].id == c.id;
      saved + [c]
  }

  /** Saving a concept that is not saved, then toggling it again, gives back the original list. */
  lemma {:induction false} ToggleTwice(saved: seq<Concept>, c: Concept)
    requires !IsSaved(saved, c.id)
    ensures ToggleSaved(ToggleSaved(saved, c), c) == saved
  {
    var once := ToggleSaved(saved, c);
    assert once == saved + [c];
    Seqs.FilterAppend(saved, [c], OtherThan(c.id));
    Seqs.FilterKeepsAll(saved, OtherThan(c.id));
    assert Seqs.Filter([c], OtherThan(c.id)) == [] by {
      assert [c][1..] == [];
    }
  }

  /**
   * The refinement handler: on a copy of the current concept, the variation at `index` takes the
   * new image when that variation exists; no concept stays no concept.
   */
  function RefineImage(concept: Option<Concept>, newImage: string, index: int): (r: Option<Concept>)
    ensures concept.None? <==> r.None?
    ensures concept.Some? && !(0 <= index < |concept.value.variations|) ==> r == concept
    ensures concept.Some? && 0 <= index < |concept.value.variations| ==>
              var was := concept.value;
              && |r.value.variations| == |was.variations|
              && r.value.variations[index] == was.variations[index].(image := newImage)
              && (forall k :: 0 <= k < |was.variations| && k != index ==> r.value.variations[k] == was.variations[k])
              && r.value == was.(variations := r.value.variations)
  {
    match concept
    case None => None
    case Some(c) =>
      if 0 <= index < |c.variations| then
        Some(c.(variations := c.variations[index := c.variations[index].(image := newImage)]))
      else
        Some(c)
  }

  /** The two ways into the generator. */
  datatype Mode = Direct | Personalized

  /** The question that opens a personalised journey. */
  const OpeningQuestion: string := "What inspired you to get a tattoo?"

  /** The journey's conversation state. */
  datatype Journey = Journey(
    conversation: seq<Turn>,
    currentQuestion: Option<string>,
    currentAnswer: string,
    aiSummary: Option<string>)

  /** `resetJourney`: an empty conversation, and the opening question only in personalised mode. */
  function ResetJourney(mode: Mode): (j: Journey)
    ensures j.conversation == [] && j.currentAnswer == "" && j.aiSummary.None?
    ensures j.currentQuestion == Some(OpeningQuestion) <==> mode == Personalized
    ensures mode == Direct <==> j.currentQuestion.None?
  {
    Journey([], if mode == Personalized then Some(OpeningQuestion) else None, "", None)
  }
}
