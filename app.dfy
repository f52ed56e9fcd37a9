/**
 * The application component's state that the saved-idea, refinement and journey handlers
 * update, as fields of one object; each handler is a method proved to perform the matching
 * function of `Concepts` and to leave every other field alone.
 */
module AppComponent {
  import opened Wrappers
  import opened Concepts

  class App {
    var savedIdeas: seq<Concept>
    var generatedConcept: Option<Concept>
    var mode: Mode
    var conversation: seq<Turn>
    var currentQuestion: Option<string>
    var currentAnswer: string
    var aiSummary: Option<string>

    /** The result card's `isSaved`: there is a current concept and its id is in the saved list. */
    predicate IsCurrentSaved()
      reads this
    {
      generatedConcept.Some? && IsSaved(savedIdeas, generatedConcept.value.id)
    }

    /** The initial hook values. */
    constructor ()
      ensures savedIdeas == [] && generatedConcept.None? && mode == Direct
      ensures conversation == [] && currentQuestion.None? && currentAnswer == "" && aiSummary.None?
    {
      savedIdeas := [];
      generatedConcept := None;
      mode := Direct;
      conversation := [];
      currentQuestion := None;
      currentAnswer := "";
      aiSummary := None;
    }

    /** `handleSaveIdea`; saving the concept on show flips the card's saved mark. */
    method SaveIdea(c: Concept)
      modifies this`savedIdeas
      ensures savedIdeas == ToggleSaved(old(savedIdeas), c)
      ensures generatedConcept.Some? && generatedConcept.value.id == c.id ==>
                (IsCurrentSaved() <==> !old(IsCurrentSaved()))
    {
      var isAlreadySaved := IsSaved(savedIdeas, c.id);
      if isAlreadySaved {
        savedIdeas := RemoveSaved(savedIdeas, c.id);
      } else {
        savedIdeas := savedIdeas + [c];
      }
    }

    /** `handleRemoveSavedIdea`. */
    method RemoveSavedIdea(id: string)
      modifies this`savedIdeas
      ensures savedIdeas == RemoveSaved(old(savedIdeas), id)
      ensures generatedConcept.Some? && generatedConcept.value.id == id ==> !IsCurrentSaved()
    {
      savedIdeas := RemoveSaved(savedIdeas, id);
    }

    /** `handleImageRefined`: a copy of the current concept with one variation's image replaced. */
    method ImageRefined(newImage: string, variationIndex: int)
      modifies this`generatedConcept
      ensures generatedConcept == RefineImage(old(generatedConcept), newImage, variationIndex)
    {
      if generatedConcept.None? {
        return;
      }
      var newConcept := generatedConcept.value;
      if 0 <= variationIndex < |newConcept.variations| {
        var variation := newConcept.variations[variationIndex].(image := newImage);
        newConcept := newConcept.(variations := newConcept.variations[variationIndex := variation]);
      }
      generatedConcept := Some(newConcept);
    }

    /** `resetJourney`, for the current mode. */
    method ResetJourney()
      modifies this`conversation, this`currentAnswer, this`aiSummary, this`currentQuestion
      ensures Journey(conversation, currentQuestion, currentAnswer, aiSummary) == Concepts.ResetJourney(mode)
    {
      conversation := [];
      currentAnswer := "";
      aiSummary := None;
      if mode == Personalized {
        currentQuestion := Some(OpeningQuestion);
      } else {
        currentQuestion := None;
      }
    }
  }
}
