# Vozes do Norte registration logic in Dafny

This project models the client-side decision logic of the "Vozes do Norte"
music-festival site. The rest of the site is layout. Two pieces are modelled:

* the CPF validator of `src/utils/cpf.ts`. A CPF is the Brazilian taxpayer
  number: eleven digits, the last two of which are mod-11 check digits
  (Receita Federal scheme). The validator strips non-digits, rejects anything
  that is not eleven digits or is eleven equal digits, and compares the two
  check digits it computes in one loop with positions 9 and 10;
* the registration form of the home page, `src/app/page.tsx`. This covers the
  CPF and phone display masks, the completed-years age and its four-way
  classification, the input handlers that update the form state, the
  submit-button condition, the city-list fallback, and `handleSubmit`. That
  handler makes two pre-flight checks, builds a digits-only payload, then
  clears the form or keeps it depending on the network outcome, and always
  releases `isSubmitting`.

Files:

* `cpf.dfy`, module `Cpf`. `Digits` is the expression `replace(/\D/g, "")`,
  which `normalizeCPF` applies and which the form also uses to strip the CPF
  and phone inputs. `NormalizeCPF` is `normalizeCPF`. `IsValidCPF` is a
  method with the source's loop, proved equal to the specification predicate
  `ValidCPF`. The check digits are stated the way the code computes them:
  d1 = (10·Σ_{i<9} c[i]·(10−i)) mod 11 and
  d2 = (10·(Σ_{i<9} c[i]·(11−i) + 2·d1)) mod 11, each with 10 read as 0.
* `format.dfy`, module `Format`. `FormatCPF` and `FormatPhone`, stated
  against masks written as `###.###.###-##`, `(##) ####-####` and
  `(##) #####-####`.
* `age.dfy`, module `Age`. `CalculateAge` and `ClassifyAge`. The age is
  characterised independently: it is the unique k such that the k-th
  anniversary has been reached and the (k+1)-th has not.
* `registration.dfy`, module `Registration`. The page state is the class
  `HomePage`: `formData`, `ageValidation`, `isSubmitting`, `isModalOpen`,
  `cities` and `isLoadingCities`. Each handler is a method that changes only
  the fields its setters touch. `handleSubmit` is split at its `await`:
  `BeginSubmit` runs the checks and raises `isSubmitting`, and `FinishSubmit`
  branches on the outcome. `Submit` composes the two.

The network result is an input. It is either `Responded(ok)` or
`Threw(JsError(name, message))`. An exception thrown by `response.json()` or
`response.text()` is the same as `Threw`, because nothing is updated before
those calls. `handleSubmit` never calls `isValidCPF`, so CPF validity does not
gate submission. `CpfPayloadScenario` fills in the whole form for someone aged
12 to 100 and shows that any CPF of one to eleven digits is sent, valid or not.

Two details of the code that the model keeps as written:

* The second check digit sums positions 0..8 with weights 11..3 and adds 2·d1
  (`src/utils/cpf.ts:6-8`); position 9 is not part of the sum.
* Below eleven digits (CPF) or ten digits (phone), the masks return the bare
  digits; no partial mask is shown (`src/app/page.tsx:159` and `:164-167`).

## Model

| member | source | states |
|---|---|---|
| Cpf.Digits | src/utils/cpf.ts:1 | `replace(/\D/g, "")`: the result holds only the characters '0'..'9' and is no longer than the input |
| Cpf.NormalizeCPF | src/utils/cpf.ts:1 | `normalizeCPF` yields a digit string no longer than its input, which stripping leaves unchanged |
| Cpf.DigitsAppend | src/utils/cpf.ts:1 | stripping distributes over concatenation, so the digits keep their original order |
| Cpf.DigitsOfChar | src/utils/cpf.ts:1 | a single character is kept exactly when it is a digit |
| Cpf.DigitsUnchanged | src/utils/cpf.ts:1 | a string of digits is returned unchanged |
| Cpf.DigitsIdempotent | src/utils/cpf.ts:1 | stripping twice is the same as stripping once |
| Cpf.DigitsKeepCounts | src/utils/cpf.ts:1 | every digit occurs as often in the result as in the input |
| Cpf.AllSame | src/utils/cpf.ts:4 | the repetition regex on eleven digits: true exactly when the first digit is counted as many times as the string is long |
| Cpf.ValidCPF | src/utils/cpf.ts:3-9 | the verdict; an accepted input has at least eleven characters and at least two different digits |
| Cpf.DigitValue | src/utils/cpf.ts:6 | `+c[i]` of a digit character is a number in 0..9 |
| Cpf.Coerce | src/utils/cpf.ts:7-8 | the 10-to-0 coercion of a remainder mod 11 yields a digit, namely the remainder mod 10 |
| Cpf.FirstCheckDigit | src/utils/cpf.ts:6-7 | the first computed check digit lies in 0..9 |
| Cpf.SecondCheckDigit | src/utils/cpf.ts:6-8 | the second computed check digit lies in 0..9 |
| Cpf.IsValidCPF | src/utils/cpf.ts:2-10 | the loop-based validator returns exactly `ValidCPF(v)`: eleven digits after stripping, not all equal, and positions 9 and 10 equal to d1 and d2 |
| Cpf.ValidIgnoresPunctuation | src/utils/cpf.ts:3 | a masked number and its bare digits get the same verdict |
| Cpf.WrongLengthRejected | src/utils/cpf.ts:4 | any input that does not strip to eleven digits, the empty string included, is rejected |
| Cpf.Repeated | src/utils/cpf.ts:4 | eleven copies of one digit form a digit string whose characters are all equal |
| Cpf.RepeatedPassesChecksum | src/utils/cpf.ts:4-9 | for eleven equal digits k both check digits come out as k, so only the repetition test rejects them |
| Cpf.WeightedSumPrefix | src/utils/cpf.ts:6 | the weighted sums read only digits 0..8 |
| Cpf.CheckDigitChangeRejected | src/utils/cpf.ts:9 | changing only the 10th or only the 11th digit of an accepted number makes it rejected |
| Cpf.Complete | src/utils/cpf.ts:6-8 | appending the two computed check digits to nine digits gives eleven digits with that prefix |
| Cpf.CompleteAccepted | src/utils/cpf.ts:4-9 | a number built by the official construction is accepted exactly when its nine leading digits are not all equal |
| Cpf.AcceptedDigits | src/utils/cpf.ts:4-9 | eleven digits that are not all equal and carry their check digits are accepted |
| Cpf.KnownValidNumber | src/utils/cpf.ts:3-9 | 52998224725 is accepted |
| Cpf.FirstDigitChangeUndetected | src/utils/cpf.ts:6-9 | 00000000604 and 10000000604 are both accepted, so a change in the first digit can go undetected |
| Format.MaskCPF | src/app/page.tsx:159 | with exactly eleven digits the result fits `###.###.###-##`; with fewer it is the digits themselves |
| Format.FormatCPF | src/app/page.tsx:157-160 | eleven digits give a 14-character string fitting `###.###.###-##`; fewer give the bare digit string |
| Format.MaskPhone | src/app/page.tsx:164-167 | ten digits fit `(##) ####-####`, eleven fit `(##) #####-####`, fewer than ten are returned bare |
| Format.FormatPhone | src/app/page.tsx:162-168 | the same three cases on the digits of any input, with lengths 14 and 15 |
| Format.MaskCPFKeepsDigits | src/app/page.tsx:159 | stripping the CPF mask returns exactly the digits it was built from |
| Format.MaskPhoneKeepsDigits | src/app/page.tsx:164-167 | stripping the phone mask returns exactly the digits it was built from |
| Format.FormatCPFKeepsDigits | src/app/page.tsx:157-160 | the digits of the formatted CPF are the digits of the input, in order |
| Format.FormatCPFIdempotent | src/app/page.tsx:157-160 | formatting an already formatted CPF changes nothing |
| Format.FormatPhoneKeepsDigits | src/app/page.tsx:162-168 | the digits of the formatted phone are the digits of the input, in order |
| Format.FormatPhoneIdempotent | src/app/page.tsx:162-168 | formatting an already formatted phone changes nothing |
| Format.KnownNumberFormatted | src/app/page.tsx:157-160 | typing 52998224725 displays 529.982.247-25 |
| Format.FormatCPFKeepsVerdict | src/app/page.tsx:157-160 | masking a CPF never changes its verdict |
| Format.KnownNumberMaskedAccepted | src/utils/cpf.ts:3-9 | the masked test number 529.982.247-25 is accepted |
| Age.CalculateAge | src/app/page.tsx:170-181 | the age is a number of completed years: the anniversary after `age` years is on or before today, the one after `age + 1` years is after today |
| Age.CompletedYearsUnique | src/app/page.tsx:170-181 | no other number has those two properties |
| Age.AgeMonotonic | src/app/page.tsx:170-181 | a later today never gives a smaller age |
| Age.AgeOnBirthday | src/app/page.tsx:176-178 | on the k-th birthday itself the age is exactly k |
| Age.ClassifyAge | src/app/page.tsx:189-218 | valid exactly for ages 12..100, authorization needed exactly for 12..17, the age carried over; the below-minimum message exactly below 12, not-allowed exactly above 100, the guardian message exactly for 12..17, the accepted message exactly for 18..100 |
| Age.EvaluateBirthDate | src/app/page.tsx:183-227 | an empty date gives the neutral record (valid, age 0, no flag, no message); otherwise exactly the classification of the completed-years age, with validity for 12..100 and the guardian flag for 12..17 |
| Age.ClassesExclusive | src/app/page.tsx:186-226 | for any record the handler can produce, exactly one of authorization needed, plainly valid and invalid holds; the flag implies a valid age in 12..17 |
| Age.AgeBoundaries | src/app/page.tsx:189-218 | 11 is refused as below the minimum, 12 and 17 need authorization, 18 and 100 pass, 101 is refused as not allowed |
| Registration.OccursShift | src/app/page.tsx:296 | a match at position 0 is a prefix, and a later match is a match in the tail |
| Registration.Contains | src/app/page.tsx:296 | `includes`: true for every prefix (the empty string included), false for anything longer than the string |
| Registration.ContainsOccurrence | src/app/page.tsx:296 | `includes` holds exactly when the substring occurs at some position |
| Registration.ClearsForm | src/app/page.tsx:273-311 | a response clears the form exactly when it is ok; an AbortError never does; any other error clears it exactly when its message contains "fetch" at some position |
| Registration.OutcomeAlert | src/app/page.tsx:273-314 | each alert belongs to exactly one kind of outcome: none for an ok response, server error for a non-ok one, timeout for an AbortError, offline simulation for another error mentioning "fetch", unexpected for every other error |
| Registration.FetchErrorClears | src/app/page.tsx:293-311 | "Failed to fetch" clears the form; an AbortError or a non-ok response does not, even when the message mentions fetch |
| Registration.BuildRequest | src/app/page.tsx:245-253 | the payload copies name, email, birth date, city and reason verbatim; CPF and phone are digits only, with the same digits as the stored masked strings |
| Registration.StoredCpfShape | src/app/page.tsx:602-607 | a CPF the input can hold is bare digits below eleven digits and fits `###.###.###-##` at eleven; its payload has at most eleven digits |
| Registration.FallbackCitiesDistinct | src/app/page.tsx:141-147 | the built-in list has five cities with distinct identifiers |
| Registration.HomePage.constructor | src/app/page.tsx:49-80 | the initial state: modal closed, no cities and loading, not submitting, empty form, neutral age record |
| Registration.HomePage.LoadCities | src/app/page.tsx:115-155 | the fetched list is stored, or the built-in list on any failure; loading ends in both cases; the page invariant is kept |
| Registration.HomePage.ChangeCpf | src/app/page.tsx:602-607 | the formatted value is stored exactly when the input holds at most eleven digits; no other field changes; the invariant of formatted stored values is kept |
| Registration.HomePage.ChangePhone | src/app/page.tsx:653-658 | the same for the phone field |
| Registration.HomePage.HandleBirthDateChange | src/app/page.tsx:183-227 | stores the date text and replaces the age record by the classification; the flag implies a valid age in 12..17 |
| Registration.HomePage.ChangeName | src/app/page.tsx:588 | only the name field changes |
| Registration.HomePage.ChangeEmail | src/app/page.tsx:675 | only the email field changes |
| Registration.HomePage.SelectCity | src/app/page.tsx:686 | only the city field changes |
| Registration.HomePage.ChangeReason | src/app/page.tsx:708 | only the reason field changes |
| Registration.HomePage.ChangeAccepted | src/app/page.tsx:720 | only the regulation checkbox changes |
| Registration.HomePage.SetModalOpen | src/app/page.tsx:566-567 | the dialog's trigger and `onOpenChange` set `isModalOpen` to the given value and nothing else |
| Registration.HomePage.SubmitEnabled | src/app/page.tsx:740 | an enabled button implies the pre-flight checks pass and no submission is pending; it is disabled while cities load or the regulation is unchecked; conversely it is enabled whenever nothing is pending, the cities are loaded and the checks pass |
| Registration.HomePage.BeginSubmit | src/app/page.tsx:229-253 | a failed age check or an unchecked regulation sends nothing, raises the matching alert and leaves `isSubmitting` alone; otherwise `isSubmitting` is raised and the digits-only payload is sent; the page invariant is kept |
| Registration.HomePage.FinishSubmit | src/app/page.tsx:271-317 | an ok response or a "fetch" error empties the form and closes the modal; any other outcome leaves both; `isSubmitting` is false afterwards |
| Registration.HomePage.Submit | src/app/page.tsx:229-318 | the whole handler: unchanged state and no request when a check fails; otherwise the request from the old form, the outcome-dependent reset, `isSubmitting` released; the age record never changes |

## Left out

* The `fetch` calls, their `AbortController` timers (3 s for cities, 8 s for
  the submission) and `router.push`. These are network and navigation I/O.
  Only their outcome is an input (`CityFetch`, `NetworkOutcome`). The
  redirect is reported as a boolean.
* Parsing of the date string and the wall clock. `new Date("YYYY-MM-DD")`
  parses as UTC but is read with local getters, so west of UTC the birth day
  can come out one day early. The model takes the birth date and today as
  explicit (year, month, day) values. A date string that does not parse
  (`NaN` age) is not modelled, because the date input only produces ISO
  dates or "".
* The `|| ""` guard of `normalizeCPF`. It only maps `null`/`undefined` to "",
  and Dafny strings cannot be null.
* The browser's constraint validation, which runs before the handlers.
  - The `maxLength` attributes (14 and 15) are not modelled.
  - The `required` attributes on name, CPF, birth date, phone, email and reason
    (`src/app/page.tsx:589, 609, 625, 660, 676, 710`) are not enforced.
  - The `type="email"` check (`src/app/page.tsx:673`) is not modelled.
  - The form at `src/app/page.tsx:580` has no `noValidate`, so the browser fires
    the submit event only when all of these hold.
  - `HomePage.Submit` does not check them. The model can therefore call it in
    states where the browser would never call `handleSubmit`, such as a form
    with empty required fields.
  - The predicate `RequiredFilled` states the `required` constraints.
    `CpfPayloadScenario` submits only forms that meet it.
* React's asynchronous, batched state updates and stale closures. Every setter
  is applied in program order. Between `BeginSubmit` and `FinishSubmit`, the
  inputs and the button are disabled by the page; the model states the button
  condition but does not forbid other calls in that window.
* An error object without a `message` string. There `includes` would itself
  throw inside the catch block. `JsError` always carries a message.
* The message text shown under the birth date and the alert texts are carried
  as enumerations with their strings. The colour of the message is not modelled.
* The navigation-bar visibility timer, the random star field, the menu and
  scrolling. These are UI, timers and randomness.
* `src/lib/api.ts` is not part of this model. The home page does not call it.
  Its `getCities` throws on a non-ok status; its `createParticipant` returns
  the raw response unchecked.
* `src/app/grupos-whatsapp/page.tsx`, `src/app/contatos/page.tsx`,
  `src/app/layout.tsx` and `next.config.ts` are not part of this model. They
  hold static content and configuration.
* The hero city buttons (`src/app/page.tsx:456-482`). They have no click
  handler, so they change no state.
* Detection of every single-digit error is not claimed. The first digit has
  weight 11 ≡ 0 in the second sum, and the 10-to-0 coercion can hide a change
  there. `Cpf.FirstDigitChangeUndetected` exhibits such a pair.
