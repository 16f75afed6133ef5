/**
 * The refinement dialogue of the dashboard page: the symptom selection, the
 * initial prediction request, the yes/no follow-up questions bounded by
 * MAX_REFINEMENTS, and the guard that shows the question.
 *
 * Each handler runs as one atomic step. The server's reply is an argument: it
 * either arrives (`Replied`) or the request throws (`Threw`).
 */
module Dashboard {
  import opened Wrappers
  import opened Names

  const MAX_REFINEMENTS: int := 3
  /** How many candidate diseases the question panel lists. */
  const SHOWN_CANDIDATES: int := 6

  const EMPTY_SELECTION: string := "Please select at least one symptom."
  const UNEXPECTED_INITIAL: string := "Unexpected initial response from server"
  const UNEXPECTED_REFINEMENT: string := "Unexpected response from server"
  const PREDICT_FAILED: string := "Error predicting disease: "
  const REFINE_FAILED: string := "Error refining prediction: "

  /** The prediction payload, without the user name. */
  datatype Request = Request(symptoms: seq<Symptom>, additionalSymptoms: seq<Symptom>, refinementCount: int)

  /** The keys of a reply the handlers look at; an absent key is `None`, `false` or "". */
  datatype Reply = Reply(
    disease: Option<Disease>,
    chatbotSuggested: bool,
    message: string,
    possibleDiseases: Option<seq<Disease>>,
    askMoreSymptoms: Option<seq<Symptom>>)

  /** The request's fate. On a disease reply the handlers then refresh the history list;
      `historyError` is the reason that refresh threw, if it did (it is not made otherwise). */
  datatype Outcome = Replied(reply: Reply, historyError: Option<string>) | Threw(reason: string)

  /** The branch a reply takes, tested in the handlers' order (an empty string is falsy, an empty list is not). */
  datatype Kind = DiseaseReply | ChatbotReply | QuestionReply | OtherReply

  function KindOf(r: Reply): (k: Kind)
    ensures k == DiseaseReply <==> r.disease.Some? && r.disease.value != ""
    ensures k == ChatbotReply <==> !(r.disease.Some? && r.disease.value != "") && r.chatbotSuggested
    ensures k == QuestionReply <==>
      && !(r.disease.Some? && r.disease.value != "")
      && !r.chatbotSuggested
      && r.possibleDiseases.Some? && r.askMoreSymptoms.Some?
  {
    if r.disease.Some? && r.disease.value != "" then DiseaseReply
    else if r.chatbotSuggested then ChatbotReply
    else if r.possibleDiseases.Some? && r.askMoreSymptoms.Some? then QuestionReply
    else OtherReply
  }

  /** `list[0]`, which is undefined on an empty list. */
  function FirstOf(list: seq<Symptom>): (first: Option<Symptom>)
    ensures first.Some? <==> list != []
    ensures first.Some? ==> first.value == list[0]
  {
    if list == [] then None else Some(list[0])
  }

  /** What the question panel shows. */
  datatype PromptView = PromptView(candidates: seq<Disease>, confirmed: seq<Symptom>, question: Symptom, round: int, rounds: int)

  class DashboardState {
    var selected: seq<Symptom>         // selectedSymptoms, by value
    var refined: seq<Symptom>          // refinedSymptoms: the confirmed extras
    var prediction: string
    var possibleDiseases: seq<Disease>
    var additionalSymptom: Option<Symptom>
    var error: string
    var refinementCount: int
    var chatbotSuggested: bool

    /** The stored counter is always below the cap. */
    ghost predicate Valid()
      reads this
    {
      0 <= refinementCount < MAX_REFINEMENTS
    }

    /** The question panel's guard: candidates, counter below the cap, and a truthy pending symptom. */
    predicate PromptVisible()
      reads this
    {
      && |possibleDiseases| > 0
      && refinementCount < MAX_REFINEMENTS
      && additionalSymptom.Some?
      && additionalSymptom.value != ""
    }

    /** The question panel, if it is shown. */
    function Prompt(): (p: Option<PromptView>)
      reads this
      ensures p.Some? <==> PromptVisible()
      ensures p.Some? ==> p.value.question == additionalSymptom.value
      ensures p.Some? ==> |p.value.candidates| <= SHOWN_CANDIDATES
      ensures p.Some? ==> p.value.candidates <= possibleDiseases
      ensures p.Some? ==> |p.value.candidates| == |possibleDiseases| || |p.value.candidates| == SHOWN_CANDIDATES
      ensures p.Some? ==> p.value.confirmed == refined
      ensures p.Some? ==> p.value.round == refinementCount + 1 && p.value.rounds == MAX_REFINEMENTS
      ensures p.Some? && Valid() ==> 1 <= p.value.round <= p.value.rounds
    {
      if PromptVisible() then
        var shown := if |possibleDiseases| <= SHOWN_CANDIDATES then possibleDiseases
                     else possibleDiseases[..SHOWN_CANDIDATES];
        Some(PromptView(shown, refined, additionalSymptom.value, refinementCount + 1, MAX_REFINEMENTS))
      else None
    }

    constructor ()
      ensures Valid()
      ensures selected == [] && refined == [] && prediction == "" && possibleDiseases == []
      ensures additionalSymptom == None && error == "" && refinementCount == 0 && !chatbotSuggested
    {
      selected, refined, prediction, possibleDiseases := [], [], "", [];
      additionalSymptom, error, refinementCount, chatbotSuggested := None, "", 0, false;
    }

    /** A new selection (`None` when the picker is cleared) discards all refinement state. */
    method HandleChange(options: Option<seq<Symptom>>)
      modifies this
      ensures Valid() && !PromptVisible()
      ensures selected == (if options.Some? then options.value else [])
      ensures refined == [] && prediction == "" && possibleDiseases == [] && additionalSymptom == None
      ensures error == "" && refinementCount == 0 && !chatbotSuggested
    {
      selected := if options.Some? then options.value else [];
      refined := [];
      prediction := "";
      possibleDiseases := [];
      additionalSymptom := None;
      error := "";
      refinementCount := 0;
      chatbotSuggested := false;
    }

    /** The Predict button: `sent` is the request made, `outcome` what came of it. */
    method HandlePredict(outcome: Outcome) returns (sent: Option<Request>)
      requires Valid()
      modifies this
      ensures Valid()
      ensures selected == old(selected)
      // an empty selection only sets the error; nothing is sent
      ensures old(selected) == [] ==>
        && sent == None
        && error == EMPTY_SELECTION
        && refined == old(refined) && prediction == old(prediction)
        && possibleDiseases == old(possibleDiseases) && additionalSymptom == old(additionalSymptom)
        && refinementCount == old(refinementCount) && chatbotSuggested == old(chatbotSuggested)
      // otherwise a fresh round starts from the selection alone
      ensures old(selected) != [] ==>
        && sent == Some(Request(old(selected), [], 0))
        && refined == [] && refinementCount == 0
      ensures old(selected) != [] && outcome.Threw? ==>
        && error == PREDICT_FAILED + outcome.reason
        && prediction == "" && possibleDiseases == [] && additionalSymptom == None && !chatbotSuggested
      ensures old(selected) != [] && outcome.Replied? ==>
        var r := outcome.reply;
        match KindOf(r)
        case DiseaseReply =>
          && prediction == r.disease.value
          && error == (if outcome.historyError.Some? then PREDICT_FAILED + outcome.historyError.value else "")
          && possibleDiseases == [] && additionalSymptom == None && !chatbotSuggested
        case ChatbotReply =>
          && chatbotSuggested && error == r.message
          && prediction == "" && possibleDiseases == [] && additionalSymptom == None
        case QuestionReply =>
          && possibleDiseases == r.possibleDiseases.value
          && additionalSymptom == FirstOf(r.askMoreSymptoms.value)
          && prediction == "" && error == "" && !chatbotSuggested
        case OtherReply =>
          && error == UNEXPECTED_INITIAL
          && prediction == "" && possibleDiseases == [] && additionalSymptom == None && !chatbotSuggested
    {
      if selected == [] {
        error := EMPTY_SELECTION;
        return None;
      }
      error := "";
      prediction := "";
      possibleDiseases := [];
      additionalSymptom := None;
      refined := [];
      refinementCount := 0;
      chatbotSuggested := false;

      sent := Some(Request(selected, [], 0));
      match outcome
      case Threw(reason) =>
        error := PREDICT_FAILED + reason;
      case Replied(r, historyError) =>
        match KindOf(r)
        case DiseaseReply =>
          prediction := r.disease.value;
          if historyError.Some? {
            error := PREDICT_FAILED + historyError.value;
          }
        case ChatbotReply =>
          error := r.message;
          chatbotSuggested := true;
        case QuestionReply =>
          possibleDiseases := r.possibleDiseases.value;
          additionalSymptom := FirstOf(r.askMoreSymptoms.value);
          refinementCount := 0;
        case OtherReply =>
          error := UNEXPECTED_INITIAL;
    }

    /** A Yes (`confirmed`) or No answer to the question shown; `sent` is the request made. */
    method HandleRefinePrediction(confirmed: bool, outcome: Outcome) returns (sent: Request)
      requires Valid() && PromptVisible()
      modifies this
      ensures Valid()
      ensures selected == old(selected)
      // confirmation is append-only: "yes" adds exactly the question's symptom
      ensures refined == old(refined) + (if confirmed then [old(additionalSymptom).value] else [])
      ensures sent == Request(old(selected), refined, old(refinementCount) + 1)
      ensures outcome.Threw? ==>
        && error == REFINE_FAILED + outcome.reason && refinementCount == 0
        && prediction == old(prediction) && chatbotSuggested == old(chatbotSuggested)
        && possibleDiseases == old(possibleDiseases) && additionalSymptom == old(additionalSymptom)
        && PromptVisible()
      ensures outcome.Replied? ==>
        var r := outcome.reply;
        var next := old(refinementCount) + 1;
        match KindOf(r)
        case DiseaseReply =>
          && prediction == r.disease.value && refinementCount == 0
          && chatbotSuggested == old(chatbotSuggested)
          && if outcome.historyError.None? then
               && possibleDiseases == [] && additionalSymptom == None && error == old(error)
             else
               // the throw skips the clearing: the question stays up beside the prediction
               && possibleDiseases == old(possibleDiseases) && additionalSymptom == old(additionalSymptom)
               && error == REFINE_FAILED + outcome.historyError.value
               && PromptVisible()
        case ChatbotReply =>
          && chatbotSuggested && error == r.message
          && possibleDiseases == [] && additionalSymptom == None && refinementCount == 0
          && prediction == old(prediction)
        case QuestionReply =>
          if next < MAX_REFINEMENTS then
            && possibleDiseases == r.possibleDiseases.value
            && additionalSymptom == FirstOf(r.askMoreSymptoms.value)
            && refinementCount == next
            && prediction == old(prediction) && error == old(error) && chatbotSuggested == old(chatbotSuggested)
          else
            && error == "" && possibleDiseases == [] && additionalSymptom == None && refinementCount == 0
            && prediction == old(prediction) && chatbotSuggested == old(chatbotSuggested)
        case OtherReply =>
          if next < MAX_REFINEMENTS then
            && error == UNEXPECTED_REFINEMENT && refinementCount == 0
            && possibleDiseases == old(possibleDiseases) && additionalSymptom == old(additionalSymptom)
            && prediction == old(prediction) && chatbotSuggested == old(chatbotSuggested)
          else
            && error == "" && possibleDiseases == [] && additionalSymptom == None && refinementCount == 0
            && prediction == old(prediction) && chatbotSuggested == old(chatbotSuggested)
      // the counter only ever advances by one, and otherwise drops back to 0
      ensures refinementCount == 0 || refinementCount == old(refinementCount) + 1
    {
      var next := refinementCount + 1;
      if confirmed {
        refined := refined + [additionalSymptom.value];
      }
      sent := Request(selected, refined, next);
      match outcome
      case Threw(reason) =>
        error := REFINE_FAILED + reason;
        refinementCount := 0;
      case Replied(r, historyError) =>
        var kind := KindOf(r);
        if kind == DiseaseReply {
          prediction := r.disease.value;
          if historyError.Some? {
            error := REFINE_FAILED + historyError.value;
            refinementCount := 0;
            return;
          }
          possibleDiseases := [];
          additionalSymptom := None;
          refinementCount := 0;
        } else if kind == ChatbotReply {
          error := r.message;
          chatbotSuggested := true;
          possibleDiseases := [];
          additionalSymptom := None;
          refinementCount := 0;
        } else if kind == QuestionReply && next < MAX_REFINEMENTS {
          possibleDiseases := r.possibleDiseases.value;
          additionalSymptom := FirstOf(r.askMoreSymptoms.value);
          refinementCount := next;
        } else if next >= MAX_REFINEMENTS {
          error := "";
          possibleDiseases := [];
          additionalSymptom := None;
          refinementCount := 0;
        } else {
          error := UNEXPECTED_REFINEMENT;
          refinementCount := 0;
        }
    }
  }
}
