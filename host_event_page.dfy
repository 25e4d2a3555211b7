/**
 * The event-hosting wizard: a four-step form whose step counter stays within 1..4,
 * single-field edits of the event data, a tag list that only ever holds distinct,
 * non-empty, trimmed tags, and a submit that requires a signed-in user.
 */
module HostEvent {
  import opened Wrappers
  import opened Text
  import opened Toasts
  import opened Auth
  import Seqs

  /** The form's `eventData`; `maxAttendees` is kept as the text typed. */
  datatype EventData = EventData(
    title: string,
    description: string,
    category: string,
    date: string,
    time: string,
    location: string,
    price: string,
    maxAttendees: string,
    tags: seq<string>,
    images: seq<string>)

  /** The text fields `handleInputChange` is called with. */
  datatype Field = Title | Description | Category | Date | Time | Location | Price | MaxAttendees

  const EmptyEventData: EventData := EventData("", "", "", "", "", "", "", "", [], [])

  function Get(d: EventData, f: Field): string {
    match f
    case Title => d.title
    case Description => d.description
    case Category => d.category
    case Date => d.date
    case Time => d.time
    case Location => d.location
    case Price => d.price
    case MaxAttendees => d.maxAttendees
  }

  /** `{ ...prev, [field]: value }`: that field takes the value, every other one is kept. */
  function WithField(d: EventData, f: Field, value: string): (r: EventData)
    ensures Get(r, f) == value
    ensures forall g :: g != f ==> Get(r, g) == Get(d, g)
    ensures r.tags == d.tags && r.images == d.images
  {
    match f
    case Title => d.(title := value)
    case Description => d.(description := value)
    case Category => d.(category := value)
    case Date => d.(date := value)
    case Time => d.(time := value)
    case Location => d.(location := value)
    case Price => d.(price := value)
    case MaxAttendees => d.(maxAttendees := value)
  }

  /** Writing back a field's own value changes nothing. */
  lemma WithFieldOwnValue(d: EventData, f: Field)
    ensures WithField(d, f, Get(d, f)) == d
  {
  }

  // ---------------------------------------------------------------------------
  // Tags

  /** The tag list's invariant: distinct, non-empty, trimmed tags. */
  predicate TagsValid(tags: seq<string>) {
    Seqs.NoDuplicates(tags) && forall i :: 0 <= i < |tags| ==> tags[i] != "" && IsTrimmed(tags[i])
  }

  /** Whether `addTag` takes the input: its trimmed form is non-empty and not yet a tag. */
  predicate Accepts(tags: seq<string>, input: string) {
    Trim(input) != "" && Trim(input) !in tags
  }

  /**
   * `addTag`'s update of the tag list and the input box: an accepted input adds its
   * trimmed form and empties the box; a rejected one leaves both as they were.
   */
  function AddedTag(tags: seq<string>, input: string): (r: (seq<string>, string))
    ensures Accepts(tags, input) ==> r.0 == tags + [Trim(input)] && r.1 == ""
    ensures !Accepts(tags, input) ==> r == (tags, input)
    ensures TagsValid(tags) ==> TagsValid(r.0)
  {
    var t := Trim(input);
    if t != "" && t !in tags then (tags + [t], "") else (tags, input)
  }

  /** `removeTag(t)`'s update: `t` goes, the other tags keep their order. */
  function RemovedTag(tags: seq<string>, t: string): (r: seq<string>)
    ensures t !in r
    ensures forall i :: 0 <= i < |tags| && tags[i] != t ==> tags[i] in r
    ensures Seqs.IsSubsequence(r, tags)
    ensures TagsValid(tags) ==> TagsValid(r)
  {
    Seqs.FilterIsSubsequence(tags, Seqs.Differs(t));
    assert TagsValid(tags) ==> Seqs.NoDuplicates(Seqs.RemoveAll(tags, t)) by {
      if TagsValid(tags) {
        Seqs.FilterNoDuplicates(tags, Seqs.Differs(t));
      }
    }
    Seqs.RemoveAll(tags, t)
  }

  /** Removing a tag just added gives the old list back. */
  lemma AddThenRemove(tags: seq<string>, input: string)
    requires Accepts(tags, input)
    ensures RemovedTag(AddedTag(tags, input).0, Trim(input)) == tags
  {
    Seqs.RemoveAllAppended(tags, Trim(input));
  }

  /** Pressing "Add" again right after a successful add does nothing: the box is empty. */
  lemma AddTwiceAddsOnce(tags: seq<string>, input: string)
    requires Accepts(tags, input)
    ensures AddedTag(AddedTag(tags, input).0, AddedTag(tags, input).1) == AddedTag(tags, input)
  {
    assert AllWhitespace("");
  }

  // ---------------------------------------------------------------------------
  // Steps

  datatype StepInfo = StepInfo(number: nat, title: string, description: string)

  const Steps: seq<StepInfo> := [
    StepInfo(1, "Event Details", "Basic information about your event"),
    StepInfo(2, "Category & Pricing", "Choose category and pricing plan"),
    StepInfo(3, "Media & Tags", "Add images and tags"),
    StepInfo(4, "Review & Publish", "Final review and publish")
  ]

  /** `steps[currentStep - 1]` is the step whose number is `currentStep`. */
  lemma StepsNumbered()
    ensures |Steps| == 4
    ensures forall i :: 0 <= i < |Steps| ==> Steps[i].number == i + 1
  {
  }

  const CreatedToast: ToastRequest := ToastRequest(
    "Event Created Successfully! \U{1F389}",
    Some("Your event has been submitted for review and will be live soon."),
    Some(Success), None)

  // ---------------------------------------------------------------------------
  // Page state

  class HostEventPage {
    var currentStep: int
    var selectedCategory: string
    var selectedPlan: string
    var eventData: EventData
    var newTag: string

    /** The step is one of the four, and the tags are valid. */
    predicate Valid()
      reads this
    {
      1 <= currentStep <= |Steps| && TagsValid(eventData.tags)
    }

    constructor ()
      ensures Valid()
      ensures currentStep == 1 && selectedCategory == "" && selectedPlan == "Standard"
      ensures eventData == EmptyEventData && newTag == ""
    {
      currentStep := 1;
      selectedCategory := "";
      selectedPlan := "Standard";
      eventData := EmptyEventData;
      newTag := "";
    }

    /** The heading under the progress bar: always a real step. */
    function CurrentStepInfo(): (s: StepInfo)
      requires Valid()
      reads this
      ensures s in Steps && s.number == currentStep
    {
      StepsNumbered();
      Steps[currentStep - 1]
    }

    method NextStep()
      requires Valid()
      modifies this`currentStep
      ensures Valid()
      ensures currentStep == if old(currentStep) < 4 then old(currentStep) + 1 else old(currentStep)
    {
      if currentStep < 4 {
        currentStep := currentStep + 1;
      }
    }

    method PrevStep()
      requires Valid()
      modifies this`currentStep
      ensures Valid()
      ensures currentStep == if old(currentStep) > 1 then old(currentStep) - 1 else old(currentStep)
    {
      if currentStep > 1 {
        currentStep := currentStep - 1;
      }
    }

    /** `handleInputChange(field, value)`. */
    method HandleInputChange(f: Field, value: string)
      requires Valid()
      modifies this`eventData
      ensures Valid()
      ensures eventData == WithField(old(eventData), f, value)
    {
      eventData := WithField(eventData, f, value);
    }

    /** A category card on step 2: both the highlighted card and the event's category. */
    method ChooseCategory(name: string)
      requires Valid()
      modifies this`selectedCategory, this`eventData
      ensures Valid()
      ensures selectedCategory == name && eventData == WithField(old(eventData), Category, name)
    {
      selectedCategory := name;
      eventData := WithField(eventData, Category, name);
    }

    method ChoosePlan(name: string)
      modifies this`selectedPlan
      ensures selectedPlan == name
    {
      selectedPlan := name;
    }

    method SetNewTag(input: string)
      modifies this`newTag
      ensures newTag == input
    {
      newTag := input;
    }

    method AddTag()
      requires Valid()
      modifies this`eventData, this`newTag
      ensures Valid()
      ensures eventData.tags == AddedTag(old(eventData.tags), old(newTag)).0
      ensures newTag == AddedTag(old(eventData.tags), old(newTag)).1
      ensures forall f :: Get(eventData, f) == Get(old(eventData), f)
      ensures eventData.images == old(eventData.images)
    {
      var r := AddedTag(eventData.tags, newTag);
      var tags, input := r.0, r.1;
      assert TagsValid(tags);
      eventData := eventData.(tags := tags);
      newTag := input;
    }

    method RemoveTag(t: string)
      requires Valid()
      modifies this`eventData
      ensures Valid()
      ensures eventData == old(eventData).(tags := RemovedTag(old(eventData.tags), t))
    {
      eventData := eventData.(tags := RemovedTag(eventData.tags, t));
    }

    /**
     * `handleSubmit` with the session user: nobody signed in goes to "/login" with no toast;
     * otherwise a success toast and "/events". The event data is not sent anywhere.
     */
    method HandleSubmit(user: Option<User>, toasts: ToastProvider, toastId: string) returns (route: string)
      modifies toasts
      ensures user.None? ==> route == "/login" && toasts.toasts == old(toasts.toasts)
      ensures user.Some? ==> route == "/events" && toasts.toasts == old(toasts.toasts) + [WithId(CreatedToast, toastId)]
    {
      if user.None? {
        route := "/login";
        return;
      }
      toasts.Toast(CreatedToast, toastId);
      route := "/events";
    }
  }
}
