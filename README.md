# Gaia World onboarding form

The onboarding form is where a new player names their digital companion and picks
its personality. The form has two steps:

- **Step 1.** The player types a name. The name is trimmed of white space and must
  then be 2 to 20 characters long. The player also picks one of four personalities
  (Playful, Calm, Energetic, Clever). The "Next" button checks the name. It
  refuses a blank name, then one that is too short, then one that is too long,
  each with its own message. A name that passes all three checks moves the form
  to step 2.
- **Step 2.** The "Start Adventure" button asks the game store to create the
  player's agent with the trimmed name and the chosen personality. It does
  nothing while a creation is in progress or when the name is invalid. If the
  store call fails, the form shows a failure message and allows another attempt.

This project has two modules:

- `JsText` (`js_text.dfy`) models JavaScript strings as sequences of UTF-16
  code units, since `.length` counts code units. It also models
  `String.prototype.trim`, which strips the code units that the ECMAScript
  language specification lists as WhiteSpace or LineTerminator (its TrimString
  operation). `Trim` is proved to:
  - remove exactly the leading and trailing white space;
  - be idempotent;
  - ignore white space added around its argument.
- `Onboarding` (`onboarding.dfy`) models the form itself:
  - the name checks, as a function;
  - the form state, as a class whose fields are the component's five pieces of
    React state;
  - each event handler, as a method with a `modifies` clause;
  - the store's `createMyAgent`, as a method of a small `AgentStore` class.
    Its outcome (success or failure) is left open, and it records every call.

The form carries a ghost log of its calls to the store. Its invariant `Valid`
says two things about that log:

- `isCreating` holds exactly when the latest call succeeded;
- no call ever follows a successful one, so the agent is created at most once.

## Model

| member | source | states |
|---|---|---|
| JsText.IsWhiteSpace | client/src/components/gaia/Onboarding.tsx:16 | the code units `trim` removes: the ECMAScript WhiteSpace code points (tab, vertical tab, form feed, space, no-break space, byte order mark, the Unicode space separators) and the LineTerminator code points (line feed, carriage return, line and paragraph separators) |
| JsText.TrimStart | client/src/components/gaia/Onboarding.tsx:16 | the leading-white-space pass of `trim`: the result is no longer than the input and does not start with white space |
| JsText.TrimEnd | client/src/components/gaia/Onboarding.tsx:16 | the trailing-white-space pass of `trim`: the result is no longer than the input and does not end with white space |
| JsText.TrimStartSuffix | client/src/components/gaia/Onboarding.tsx:16 | what the leading pass keeps is a suffix of the input, and everything it drops is white space |
| JsText.TrimEndPrefix | client/src/components/gaia/Onboarding.tsx:16 | what the trailing pass keeps is a prefix of the input, and everything it drops is white space |
| JsText.Trim | client/src/components/gaia/Onboarding.tsx:16 | `name.trim()`: the result is no longer than the input and has nothing left to trim (it is empty, or it starts and ends with a code unit that is not white space) |
| JsText.TrimEmptyIffBlank | client/src/components/gaia/Onboarding.tsx:16 | the trimmed name is empty (the falsy `trimmedName`) if and only if every code unit of the name is white space |
| JsText.TrimDecomposes | client/src/components/gaia/Onboarding.tsx:16 | the trimmed string occurs in the input right after the leading white space, and every code unit before or after it is white space |
| JsText.TrimOfTrimmed | client/src/components/gaia/Onboarding.tsx:16 | a string with nothing to trim is left unchanged by `trim` |
| JsText.TrimIdempotent | client/src/components/gaia/Onboarding.tsx:16 | trimming twice gives the same result as trimming once |
| JsText.TrimStartPadded | client/src/components/gaia/Onboarding.tsx:16 | prepending white space does not change what the leading pass keeps |
| JsText.TrimEndPadded | client/src/components/gaia/Onboarding.tsx:16 | appending white space does not change what the trailing pass keeps |
| JsText.TrimStartAppend | client/src/components/gaia/Onboarding.tsx:16 | on a string that is not all white space, the leading pass stops inside it, so text appended to it is kept whole |
| JsText.TrimIgnoresPadding | client/src/components/gaia/Onboarding.tsx:16 | white space added before and after any string does not change its trimmed form |
| JsText.TrimUnique | client/src/components/gaia/Onboarding.tsx:16 | a string with nothing to trim, surrounded by white space, is exactly what `trim` returns; together with TrimDecomposes this determines `trim` completely |
| Onboarding.IsValidName | client/src/components/gaia/Onboarding.tsx:17 | `isValidName`: the trimmed length is at least 2 and at most 20; a valid name is never all white space |
| Onboarding.Message | client/src/components/gaia/Onboarding.tsx:25-35 | the three refusal messages of the next-step checks, word for word; none is empty, so each one shows the error line |
| Onboarding.CheckName | client/src/components/gaia/Onboarding.tsx:24-36 | the three ordered name checks: no check fails exactly when the name is valid (trimmed length 2 to 20); "missing" fires exactly for a blank name; "too short" fires exactly for a trimmed length of 1; "too long" fires exactly for a trimmed length over 20 |
| Onboarding.TrimmedValidName | client/src/components/gaia/Onboarding.tsx:16-17 | the trimmed form of a valid name, which is what reaches the store, is itself valid and has nothing left to trim |
| Onboarding.ValidityIgnoresPadding | client/src/components/gaia/Onboarding.tsx:16-17 | white space around a name changes neither whether it is valid nor which check refuses it |
| Onboarding.FormError.Text | client/src/components/gaia/Onboarding.tsx:93-94 | the error line is shown (its text is non-empty) exactly when the form holds an error |
| Onboarding.OnboardingForm.Valid | client/src/components/gaia/Onboarding.tsx:12-14 | the form invariant: the step is 1 or 2; `isCreating` holds exactly when the latest store call succeeded; no call follows a successful one; hence at most one call ever succeeds, so the agent is created at most once |
| Onboarding.SubmissionLogExtend | client/src/components/gaia/Onboarding.tsx:41-51 | a store call made while not creating keeps the log well formed, and afterwards the form is creating exactly when that call succeeded |
| Onboarding.AgentStore.constructor | client/src/components/gaia/Onboarding.tsx:9 | a store that has received no calls yet |
| Onboarding.AgentStore.CreateMyAgent | client/src/components/gaia/Onboarding.tsx:47 | `createMyAgent(name, personality)`: records the call with its arguments and its outcome, which is either success or failure |
| Onboarding.OnboardingForm.constructor | client/src/components/gaia/Onboarding.tsx:10-14 | the initial state: empty name, Playful, step 1, no error, not creating, and no store calls; the invariant holds |
| Onboarding.OnboardingForm.HandleNameChange | client/src/components/gaia/Onboarding.tsx:19-22 | stores the typed value as the name and clears the error; nothing else changes; the invariant is kept |
| Onboarding.OnboardingForm.SelectPersonality | client/src/components/gaia/Onboarding.tsx:102-105 | sets the personality; nothing else changes; the invariant is kept |
| Onboarding.OnboardingForm.HandleNextStep | client/src/components/gaia/Onboarding.tsx:24-38 | the first failing check sets its error and leaves the step as it was; a name passing all checks moves the form to step 2 and leaves the error as it was; the step becomes 2 exactly when the name is valid; nothing else changes |
| Onboarding.OnboardingForm.HandleCreate | client/src/components/gaia/Onboarding.tsx:40-52 | with an invalid name, or while creating, nothing changes and the store receives no call. Otherwise the store receives exactly one call with the trimmed name and the chosen personality. On failure the form shows the failure message and stops creating; on success it stays creating with no error. Name, personality and step never change. The invariant (no call after a success) is kept |

## Left out

- Rendering is not modelled: JSX layout, animation, CSS classes, the "n/20 characters" counter and the
  personality highlight.
- The DNA string drawn from `Math.random` on step 2 is display-only and is not modelled.
- The input's `maxLength={20}` attribute is not modelled. It is a browser limit on typing and not part of
  the component's logic. `HandleNameChange` accepts any value, and the checks still refuse over-long names.
- The `disabled` attributes on the two buttons are not modelled as preconditions. Each handler is
  modelled for every state.
  - The Next button is disabled exactly when the trimmed name is empty (Onboarding.tsx:122). That is
    the same condition as the first check in `HandleNextStep` (Onboarding.tsx:25). So in the rendered
    form the "Please enter a name for your companion" message can never be shown. The model still
    handles a blank name in `HandleNextStep`, as the handler's code does.
  - The create button is disabled while `isCreating` holds (Onboarding.tsx:162). `HandleCreate` does
    nothing in that state anyway.
- Asynchrony is not modelled. `HandleCreate` runs to completion in one step: `isCreating` is set, the
  store is called, and its outcome is applied. This model does not capture two things:
  - the window before React re-renders, in which a second click could still see the old `isCreating`;
  - the "Creating..." state visible while the call is pending.
- The store's game logic behind `createMyAgent` (lib/gaia-store) is not part of this model. Only the
  arguments it receives and whether it succeeds are. What the rest of the app shows after a successful
  creation is decided outside this component and is not modelled.
- Onboarding.FormError.Text: the error is held as a small enumeration (`FormError`) rather than a free
  string. The component's `error` only ever holds one of five strings: the empty string, the three
  refusal messages and the creation-failure message. `FormError` has exactly five values, and `Text`
  maps each to that exact string, so no behaviour is lost.
- JsText.IsWhiteSpace is a fixed list of code units taken from the ECMAScript WhiteSpace and
  LineTerminator productions, with the Unicode space separators as of current Unicode versions. A
  future Unicode version that adds space separators is not tracked.
- Three behaviours of the code worth noting, which the model keeps:
  - `HandleCreate` on an invalid name returns silently, with no user-visible message;
  - `HandleCreate` does not check which step the form is on;
  - after a successful creation `isCreating` stays true, so the create button stays disabled.
