/**
 * The new-task page: a free-text idea that, once long enough, is sent for an
 * AI suggestion; the suggestion can be accepted into the form; the form is
 * submitted to `POST /api/tasks` when it has a title.
 */
module NewTaskPage {
  import opened Wrappers
  import opened JsText
  import opened JsonValue
  import opened TaskModel
  import opened TasksRoute
  import opened SuggestTask

  /** `timeEstimate` holds a number until the input is edited, and the input's text after. */
  datatype FormEstimate = FormNumber(number: real) | FormText(text: string)

  datatype TaskForm = TaskForm(title: string, description: string, priority: string, timeEstimate: FormEstimate, dueDate: Option<Timestamp>)

  /** The named inputs `handleFormChange` serves. */
  datatype FormField = TitleField | DescriptionField | PriorityField | EstimateField

  const InitialForm: TaskForm := TaskForm("", "", "MEDIUM", FormNumber(30.0), None)

  /** The page starts with the defaults the route applies to a bare title. */
  lemma {:induction false} InitialFormMatchesRouteDefaults()
    ensures PriorityNamed(InitialForm.priority) == Some(Medium)
    ensures InitialForm.timeEstimate == FormNumber(DefaultTimeEstimate as real)
  {
  }

  /** `{ ...prev, [name]: value }`: one field replaced by the input's text. */
  function WithField(form: TaskForm, field: FormField, value: string): (r: TaskForm)
    ensures field == TitleField ==> r == form.(title := value)
    ensures field == DescriptionField ==> r == form.(description := value)
    ensures field == PriorityField ==> r == form.(priority := value)
    ensures field == EstimateField ==> r == form.(timeEstimate := FormText(value))
  {
    match field
    case TitleField => form.(title := value)
    case DescriptionField => form.(description := value)
    case PriorityField => form.(priority := value)
    case EstimateField => form.(timeEstimate := FormText(value))
  }

  /** Edits of two different inputs can be applied in either order. */
  lemma {:induction false} WithFieldCommutes(form: TaskForm, a: FormField, x: string, b: FormField, y: string)
    requires a != b
    ensures WithField(WithField(form, a, x), b, y) == WithField(WithField(form, b, y), a, x)
  {
  }

  /** A later edit of the same input replaces an earlier one, and no edit touches the due date. */
  lemma {:induction false} WithFieldOverwrites(form: TaskForm, field: FormField, x: string, y: string)
    ensures WithField(WithField(form, field, x), field, y) == WithField(form, field, y)
    ensures WithField(form, field, x).dueDate == form.dueDate
  {
  }

  /** `aiSuggestion.dueDate ? new Date(aiSuggestion.dueDate) : null`. */
  function SuggestedDue(s: Suggestion, parseDate: string -> Timestamp): Option<Timestamp> {
    if s.dueDate.Some? && s.dueDate.value != "" then Some(parseDate(s.dueDate.value)) else None
  }

  /** The form after accepting a suggestion. */
  function FormOf(s: Suggestion, parseDate: string -> Timestamp): TaskForm {
    TaskForm(s.title, s.description, PriorityName(s.priority), FormNumber(s.timeEstimate), SuggestedDue(s, parseDate))
  }

  /** `JSON.stringify(Number(v))`: a number, or `null` for NaN and the infinities. */
  function EstimateJson(e: FormEstimate, toNumber: string -> Option<real>): Json {
    match e
    case FormNumber(n) => JNumber(n)
    case FormText(t) => if toNumber(t).Some? then JNumber(toNumber(t).value) else JNull
  }

  /** The body of `POST /api/tasks`: the form with its estimate passed through `Number`. */
  function FormBody(form: TaskForm, toNumber: string -> Option<real>, isoString: Timestamp -> string): Json {
    JObject([
      ("title", JString(form.title)),
      ("description", JString(form.description)),
      ("priority", JString(form.priority)),
      ("timeEstimate", EstimateJson(form.timeEstimate, toNumber)),
      ("dueDate", if form.dueDate.Some? then JString(isoString(form.dueDate.value)) else JNull)
    ])
  }

  /** The `dueDate` the route reads from a submitted form: the ISO text of the picked date, or `null`. */
  function SubmittedDueDate(form: TaskForm, isoString: Timestamp -> string): Option<string> {
    if form.dueDate.Some? then Some(isoString(form.dueDate.value)) else None
  }

  /**
   * The date picked in the form is the date the route stores, as long as
   * `new Date` reads back what `toISOString` writes (which is never empty).
   */
  lemma {:induction false} DueDateSurvivesSubmit(form: TaskForm, isoString: Timestamp -> string, parseDate: string -> Timestamp)
    requires form.dueDate.Some? ==> isoString(form.dueDate.value) != ""
    requires form.dueDate.Some? ==> parseDate(isoString(form.dueDate.value)) == form.dueDate.value
    ensures CoerceDueDate(SubmittedDueDate(form, isoString), parseDate) == form.dueDate
  {
  }

  /** The body of `POST /api/suggest-task`. */
  function SuggestBody(userInput: string): Json {
    JObject([("userInput", JString(userInput))])
  }

  /** The page submits only forms whose title the route accepts, and sends it untrimmed. */
  lemma {:induction false} SubmittedTitleAccepted(form: TaskForm, toNumber: string -> Option<real>, isoString: Timestamp -> string)
    requires !IsBlank(form.title)
    ensures Get(FormBody(form, toNumber, isoString), "title") == Some(JString(form.title))
    ensures HasTitle(Some(form.title))
  {
    LookupAt(FormBody(form, toNumber, isoString).members, 0);
  }

  /** An idea the page sends for a suggestion is never refused as missing by the route. */
  lemma {:induction false} RequestedInputAccepted(userInput: string)
    requires Utf16Length(Trim(userInput)) > 5
    ensures TruthyValue(Get(SuggestBody(userInput), "userInput"))
  {
  }

  /** Accepting a suggestion and submitting the form sends the suggested title, description and priority. */
  lemma {:induction false} AcceptedSuggestionSubmitted(s: Suggestion, parseDate: string -> Timestamp, toNumber: string -> Option<real>, isoString: Timestamp -> string)
    ensures var body := FormBody(FormOf(s, parseDate), toNumber, isoString);
      && Get(body, "title") == Some(JString(s.title))
      && Get(body, "description") == Some(JString(s.description))
      && Get(body, "priority") == Some(JString(PriorityName(s.priority)))
      && Get(body, "timeEstimate") == Some(JNumber(s.timeEstimate))
  {
    var m := FormBody(FormOf(s, parseDate), toNumber, isoString).members;
    LookupAt(m, 0);
    LookupAt(m, 1);
    LookupAt(m, 2);
    LookupAt(m, 3);
  }

  /** How a suggestion request settles: the parsed body, or a thrown `fetch` or `res.json()`. */
  datatype SuggestOutcome = SuggestReplied(data: Json) | SuggestThrew

  class NewTaskForm {
    var userInput: string
    var form: TaskForm
    var suggestion: Option<Suggestion>
    var isLoadingAi: bool

    constructor()
      ensures userInput == "" && form == InitialForm && suggestion.None? && !isLoadingAi
    {
      userInput, form, suggestion, isLoadingAi := "", InitialForm, None, false;
    }

    method SetUserInput(text: string)
      modifies this`userInput
      ensures userInput == text
    {
      userInput := text;
    }

    /**
     * The debounce timer firing: an idea longer than five UTF-16 code units
     * once trimmed is sent, untrimmed; a shorter one clears the suggestion.
     */
    method SuggestionTimerFired() returns (request: Option<Json>)
      modifies this`suggestion, this`isLoadingAi
      ensures Utf16Length(Trim(userInput)) > 5 ==>
        request == Some(SuggestBody(userInput)) && isLoadingAi && suggestion == old(suggestion)
      ensures Utf16Length(Trim(userInput)) <= 5 ==>
        request.None? && suggestion.None? && isLoadingAi == old(isLoadingAi)
    {
      if Utf16Length(Trim(userInput)) > 5 {
        isLoadingAi := true;
        request := Some(SuggestBody(userInput));
      } else {
        suggestion := None;
        request := None;
      }
    }

    /** The suggestion request settling: a body that decodes becomes the suggestion, and loading ends either way. */
    method SuggestionSettled(outcome: SuggestOutcome)
      modifies this`suggestion, this`isLoadingAi
      ensures outcome.SuggestReplied? ==> suggestion == DecodeSuggestion(outcome.data)
      ensures outcome.SuggestThrew? ==> suggestion == old(suggestion)
      ensures !isLoadingAi
    {
      if outcome.SuggestReplied? {
        suggestion := DecodeSuggestion(outcome.data);
      }
      isLoadingAi := false;
    }

    /** The Clear button. */
    method ClearSuggestion()
      modifies this`suggestion
      ensures suggestion.None?
    {
      suggestion := None;
    }

    method ChangeField(field: FormField, value: string)
      modifies this`form
      ensures form == WithField(old(form), field, value)
    {
      form := WithField(form, field, value);
    }

    /** The date picker's `onChange`. */
    method ChangeDueDate(date: Option<Timestamp>)
      modifies this`form
      ensures form == old(form).(dueDate := date)
    {
      form := form.(dueDate := date);
    }

    /** The Accept button: the suggestion replaces the form, and the idea and the suggestion are cleared. */
    method AcceptSuggestion(parseDate: string -> Timestamp)
      modifies this`form, this`suggestion, this`userInput
      ensures old(suggestion).Some? ==>
        form == FormOf(old(suggestion).value, parseDate) && suggestion.None? && userInput == ""
      ensures old(suggestion).None? ==>
        form == old(form) && suggestion == old(suggestion) && userInput == old(userInput)
    {
      if suggestion.Some? {
        form := FormOf(suggestion.value, parseDate);
        suggestion := None;
        userInput := "";
      }
    }

    /** Submitting: nothing is sent while the title is blank. */
    method AddTask(toNumber: string -> Option<real>, isoString: Timestamp -> string) returns (request: Option<Json>)
      ensures IsBlank(form.title) ==> request.None?
      ensures !IsBlank(form.title) ==> request == Some(FormBody(form, toNumber, isoString))
    {
      if Trim(form.title) == "" {
        return None;
      }
      request := Some(FormBody(form, toNumber, isoString));
    }
  }
}
