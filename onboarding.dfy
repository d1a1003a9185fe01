/** The companion-creation form: a name step (validated after trimming) and a
    personality/confirm step that asks the game store to create the user's
    agent. The store's own game logic is not part of this model; only the
    call it receives and whether it succeeds are. */
module Onboarding {
  import opened JsText

  datatype Option<T> = None | Some(value: T)

  /** The four personalities the form offers, in the order it shows them. */
  datatype Personality = Playful | Calm | Energetic | Clever

  /** Bounds on the length of the trimmed name, in UTF-16 code units. */
  const MinNameLength: nat := 2
  const MaxNameLength: nat := 20

  /** A name is accepted when its trimmed length lies between the bounds; in
      particular an accepted name is never all white space. */
  predicate IsValidName(name: JsString): (r: bool)
    ensures r ==> !IsBlank(name)
  {
    TrimEmptyIffBlank(name);
    MinNameLength <= |Trim(name)| <= MaxNameLength
  }

  /** Why the next-step button refuses a name. */
  datatype NameError = Missing | TooShort | TooLong

  /** The message shown for each refusal; none of them is empty, so each one
      shows the error line. The messages are plain ASCII, where a Dafny
      `char` and a UTF-16 code unit coincide, so they are kept as `string`
      rather than `JsString`: nothing in the form measures or trims them. */
  function Message(e: NameError): (r: string)
    ensures r != ""
  {
    match e
    case Missing => "Please enter a name for your companion"
    case TooShort => "Name must be at least 2 characters"
    case TooLong => "Name must be 20 characters or less"
  }

  /** What the form's error line holds: nothing, a refused name, or a failed creation. */
  datatype FormError = NoError | Rejected(reason: NameError) | CreateFailed {
    /** The text of the error line. The form shows the line exactly when this
        text is not empty, which is exactly when there is an error. */
    function Text(): (r: string)
      ensures r == "" <==> this == NoError
    {
      match this
      case NoError => ""
      case Rejected(e) => Message(e)
      case CreateFailed => "Failed to create companion. Please try again."
    }
  }

  /** The first of the three name checks that fails, if any: an empty trimmed
      name, then one shorter than the minimum, then one longer than the maximum.
      The checks reject exactly the invalid names, the first one fires exactly
      for blank input and the second exactly for a single code unit. */
  function CheckName(name: JsString): (r: Option<NameError>)
    ensures r == None <==> IsValidName(name)
    ensures r == Some(Missing) <==> IsBlank(name)
    ensures r == Some(TooShort) <==> |Trim(name)| == 1
    ensures r == Some(TooLong) <==> |Trim(name)| > MaxNameLength
  {
    TrimEmptyIffBlank(name);
    var trimmed := Trim(name);
    if |trimmed| == 0 then Some(Missing)
    else if |trimmed| < MinNameLength then Some(TooShort)
    else if |trimmed| > MaxNameLength then Some(TooLong)
    else None
  }

  /** The name handed to the store is itself valid and has nothing left to
      trim, so the store sees a name that passes the form's own check. */
  lemma TrimmedValidName(name: JsString)
    requires IsValidName(name)
    ensures IsValidName(Trim(name)) && Trim(Trim(name)) == Trim(name)
  {
    TrimIdempotent(name);
  }

  /** White space typed around a name never changes whether it is accepted,
      nor the name handed to the store. */
  lemma ValidityIgnoresPadding(pre: JsString, name: JsString, post: JsString)
    requires IsBlank(pre) && IsBlank(post)
    ensures IsValidName(pre + name + post) <==> IsValidName(name)
    ensures CheckName(pre + name + post) == CheckName(name)
  {
    TrimIgnoresPadding(pre, name, post);
  }

  /** One call of the store's `createMyAgent`: its arguments and whether it succeeded. */
  datatype CreateCall = CreateCall(name: JsString, personality: Personality, ok: bool)

  /** What the form's submissions look like: `isCreating` holds exactly when
      the latest one succeeded, and none follows a successful one. */
  ghost predicate IsSubmissionLog(submissions: seq<CreateCall>, isCreating: bool) {
    && (isCreating <==> submissions != [] && submissions[|submissions| - 1].ok)
    && (forall k :: 0 <= k < |submissions| - 1 ==> !submissions[k].ok)
  }

  /** A submission made while the form is not creating keeps the log well
      formed, and the form is creating afterwards exactly when it succeeded. */
  lemma SubmissionLogExtend(submissions: seq<CreateCall>, c: CreateCall)
    requires IsSubmissionLog(submissions, false)
    ensures IsSubmissionLog(submissions + [c], c.ok)
  {
    var next := submissions + [c];
    assert forall k :: 0 <= k < |submissions| ==> next[k] == submissions[k];
  }

  /** The part of the game store the form talks to. Whether a creation
      succeeds is decided by code outside this model, so the outcome is left
      open; the store only records each call it receives. */
  class AgentStore {
    var calls: seq<CreateCall>

    constructor ()
      ensures calls == []
    {
      calls := [];
    }

    method CreateMyAgent(name: JsString, personality: Personality) returns (ok: bool)
      modifies this
      ensures calls == old(calls) + [CreateCall(name, personality, ok)]
    {
      ok := *;
      calls := calls + [CreateCall(name, personality, ok)];
    }
  }

  /** The state of the onboarding form and its event handlers. */
  class OnboardingForm {
    var name: JsString
    var personality: Personality
    var step: int
    var error: FormError
    var isCreating: bool
    const store: AgentStore

    /** The calls this form has made to the store, in order. */
    ghost var submissions: seq<CreateCall>

    /** The form invariant: the step is 1 or 2; `isCreating` holds exactly
        when the latest submission succeeded; and no submission ever follows a
        successful one, so the agent is created at most once. */
    ghost predicate Valid(): (r: bool)
      reads this
      ensures r ==> forall i, j ::
                      (0 <= i < |submissions| && 0 <= j < |submissions| &&
                       submissions[i].ok && submissions[j].ok) ==> i == j
    {
      && (step == 1 || step == 2)
      && IsSubmissionLog(submissions, isCreating)
    }

    /** The form as first shown: empty name, Playful, step 1, no error, not creating. */
    constructor (store: AgentStore)
      ensures Valid() && this.store == store
      ensures name == [] && personality == Playful && step == 1 && error == NoError && !isCreating
      ensures submissions == []
    {
      this.store := store;
      name, personality, step, error, isCreating := [], Playful, 1, NoError, false;
      submissions := [];
    }

    /** Typing in the name field stores the input and clears the error. */
    method HandleNameChange(value: JsString)
      requires Valid()
      modifies this
      ensures Valid()
      ensures name == value && error == NoError
      ensures personality == old(personality) && step == old(step) && isCreating == old(isCreating)
      ensures submissions == old(submissions)
    {
      name := value;
      error := NoError;
    }

    /** Clicking one of the four personality buttons selects it. */
    method SelectPersonality(p: Personality)
      requires Valid()
      modifies this
      ensures Valid()
      ensures personality == p
      ensures name == old(name) && step == old(step) && error == old(error) && isCreating == old(isCreating)
      ensures submissions == old(submissions)
    {
      personality := p;
    }

    /** The next-step button: the first failing name check sets its message
        and leaves the step alone; a name passing all three moves to step 2. */
    method HandleNextStep()
      requires Valid()
      modifies this
      ensures Valid()
      ensures match CheckName(name)
              case None => step == 2 && error == old(error)
              case Some(e) => step == old(step) && error == Rejected(e)
      ensures step == (if IsValidName(name) then 2 else old(step))
      ensures name == old(name) && personality == old(personality) && isCreating == old(isCreating)
      ensures submissions == old(submissions)
    {
      var trimmed := Trim(name);
      if |trimmed| == 0 {
        assert CheckName(name) == Some(Missing);
        error := Rejected(Missing);
        return;
      }
      if |trimmed| < MinNameLength {
        assert CheckName(name) == Some(TooShort);
        error := Rejected(TooShort);
        return;
      }
      if |trimmed| > MaxNameLength {
        assert CheckName(name) == Some(TooLong);
        error := Rejected(TooLong);
        return;
      }
      assert CheckName(name) == None;
      step := 2;
    }

    /** The create button. An invalid name or a creation already in progress
        makes it do nothing at all. Otherwise it marks the form as creating,
        clears the error and calls the store with the trimmed name and the
        selected personality; if that call fails, it shows the failure message
        and allows another attempt, and if it succeeds the form stays creating. */
    method HandleCreate()
      requires Valid()
      modifies this, store
      ensures Valid()
      ensures name == old(name) && personality == old(personality) && step == old(step)
      ensures !old(IsValidName(name)) || old(isCreating) ==>
                unchanged(this) && store.calls == old(store.calls)
      ensures old(IsValidName(name)) && !old(isCreating) ==>
                && submissions == old(submissions) + [CreateCall(Trim(name), personality, isCreating)]
                && store.calls == old(store.calls) + [CreateCall(Trim(name), personality, isCreating)]
                && error == (if isCreating then NoError else CreateFailed)
    {
      if IsValidName(name) && !isCreating {
        isCreating := true;
        error := NoError;
        var trimmed := Trim(name);
        var ok := store.CreateMyAgent(trimmed, personality);
        SubmissionLogExtend(submissions, CreateCall(trimmed, personality, ok));
        if !ok {
          error := CreateFailed;
          isCreating := false;
        }
        submissions := submissions + [CreateCall(trimmed, personality, ok)];
      }
    }
  }

  /** A walk through the form: a blank name is refused, a padded name moves
      on and reaches the store trimmed, and once a creation has succeeded the
      create button does nothing more. */
  method OnboardingScenario() {
    var store := new AgentStore();
    var form := new OnboardingForm(store);
    form.HandleNextStep();
    assert form.step == 1 && form.error == Rejected(Missing);

    var sparky: JsString := [0x53, 0x70, 0x61, 0x72, 0x6B, 0x79];  // "Sparky"
    TrimOfTrimmed(sparky);
    TrimIgnoresPadding([0x20], sparky, [0x20]);
    form.HandleNameChange([0x20] + sparky + [0x20]);
    assert Trim(form.name) == sparky;
    form.HandleNextStep();
    assert form.step == 2 && form.error == NoError;

    form.SelectPersonality(Calm);
    form.HandleCreate();
    assert store.calls == [CreateCall(sparky, Calm, form.isCreating)];
    if form.isCreating {
      form.HandleCreate();
      assert |store.calls| == 1;
    } else {
      assert form.error == CreateFailed;
    }
  }
}
