/**
 * The registration form of the home page (src/app/page.tsx): the component
 * state (`formData`, `ageValidation`, `isSubmitting`, `isModalOpen`, the city
 * list) and the handlers that update it. The network and the clock are inputs:
 * the outcome of the participant POST, the outcome of the city fetch, and the
 * calendar dates of the birth date and of today.
 */
module Registration {
  import opened Cpf
  import opened Format
  import opened Age

  datatype Option<T> = None | Some(value: T)

  /** The `formData` record: every field as the inputs hold it. */
  datatype FormData = FormData(
    nomeCompleto: string,
    cpf: string,
    dataNascimento: string,
    celular: string,
    email: string,
    cidade: string,
    testemunho: string,
    aceitoRegulamento: bool)

  /** The initial form, and the form after a successful submission. */
  const EmptyForm := FormData("", "", "", "", "", "", "", false)

  datatype City = City(id: string, name: string)

  /** The built-in list used when the city list cannot be fetched. */
  const FallbackCities := [
    City("550e8400-e29b-41d4-a716-446655440001", "Marabá"),
    City("550e8400-e29b-41d4-a716-446655440002", "Santarém"),
    City("550e8400-e29b-41d4-a716-446655440003", "Portel"),
    City("550e8400-e29b-41d4-a716-446655440004", "Benevides"),
    City("550e8400-e29b-41d4-a716-446655440005", "Belém")
  ]

  /** What the city request produced: a parsed list, or any failure (error status, timeout, network, bad JSON). */
  datatype CityFetch = CitiesLoaded(list: seq<City>) | CityFetchFailed

  /** The JSON body posted to the participant service. */
  datatype ParticipantRequest = ParticipantRequest(
    name: string,
    email: string,
    phone: string,
    cpf: string,
    birthDate: string,
    cityId: string,
    reason: string)

  /** A thrown JavaScript error, as far as the handler inspects it. */
  datatype JsError = JsError(name: string, message: string)

  /**
   * What the participant request produced: a response (with its `ok` flag), or an
   * exception. An exception from `response.json()` or `response.text()` takes the
   * same path as one from `fetch`, since nothing is updated before them.
   */
  datatype NetworkOutcome = Responded(ok: bool) | Threw(error: JsError)

  /** The messages `alert` shows during a submission. */
  datatype Alert =
    | AgeAlert
    | RegulationAlert
    | ServerErrorAlert
    | TimeoutAlert
    | OfflineSimulatedAlert
    | UnexpectedAlert
  {
    /** The text the browser shows for this alert. */
    function Text(): string {
      match this
      case AgeAlert => "Idade mínima para participação é de 12 anos completos."
      case RegulationAlert => "Você deve aceitar o regulamento para prosseguir com a inscrição."
      case ServerErrorAlert => "Erro ao enviar inscrição. Tente Novamente"
      case TimeoutAlert => "Timeout na conexão. Tente novamente mais tarde."
      case OfflineSimulatedAlert => "\U{26A0}\U{FE0F} Backend offline - Simulando sucesso para desenvolvimento"
      case UnexpectedAlert => "Erro inesperado. Tente novamente mais tarde"
    }
  }

  /** `s.includes(sub)`: the empty string and every prefix are included; nothing longer than `s` is. */
  function Contains(s: string, sub: string): (r: bool)
    ensures r ==> |sub| <= |s|
    ensures sub <= s ==> r
    decreases |s|
  {
    if sub <= s then true
    else if s == [] then false
    else Contains(s[1..], sub)
  }

  /** `sub` occurs in `s` starting at position `i`. */
  predicate OccursAt(s: string, sub: string, i: int) {
    0 <= i <= |s| - |sub| && s[i..i + |sub|] == sub
  }

  /** An occurrence at position 0 is a prefix; a later one is an occurrence in the tail. */
  lemma OccursShift(s: string, sub: string, i: int)
    requires s != []
    ensures OccursAt(s, sub, 0) <==> sub <= s
    ensures 0 < i ==> (OccursAt(s, sub, i) <==> OccursAt(s[1..], sub, i - 1))
  {
    if sub <= s {
      assert s[0..|sub|] == sub;
    }
    if 0 < i <= |s| - |sub| {
      assert s[i..i + |sub|] == s[1..][i - 1..i - 1 + |sub|];
    }
  }

  /** `Contains` holds exactly when `sub` occurs at some position of `s`. */
  lemma {:induction false} ContainsOccurrence(s: string, sub: string)
    ensures Contains(s, sub) <==> exists i :: OccursAt(s, sub, i)
    decreases |s|
  {
    if s == [] {
      if sub == [] {
        assert OccursAt(s, sub, 0);
      }
    } else {
      OccursShift(s, sub, 0);
      if !(sub <= s) {
        ContainsOccurrence(s[1..], sub);
        forall i | 0 < i
          ensures OccursAt(s, sub, i) <==> OccursAt(s[1..], sub, i - 1)
        {
          OccursShift(s, sub, i);
        }
        if Contains(s[1..], sub) {
          var i :| OccursAt(s[1..], sub, i);
          assert OccursAt(s, sub, i + 1);
        }
      }
    }
  }

  /**
   * The outcomes after which the handler clears the form and closes the modal:
   * an ok response, or an error that is not an abort and whose message mentions "fetch".
   */
  function ClearsForm(o: NetworkOutcome): (b: bool)
    ensures o.Responded? ==> (b <==> o.ok)
    ensures o.Threw? && o.error.name == "AbortError" ==> !b
    ensures o.Threw? ==> (b <==> o.error.name != "AbortError" && exists i :: OccursAt(o.error.message, "fetch", i))
  {
    match o
    case Responded(ok) => ok
    case Threw(e) =>
      ContainsOccurrence(e.message, "fetch");
      e.name != "AbortError" && Contains(e.message, "fetch")
  }

  /** The alert each outcome raises (an ok response raises none). */
  function OutcomeAlert(o: NetworkOutcome): (a: Option<Alert>)
    ensures a == None <==> o == Responded(true)
    ensures a == Some(ServerErrorAlert) <==> o == Responded(false)
    ensures a == Some(TimeoutAlert) <==> o.Threw? && o.error.name == "AbortError"
    ensures a == Some(OfflineSimulatedAlert) <==> ClearsForm(o) && o.Threw?
    ensures a == Some(UnexpectedAlert) <==> o.Threw? && !ClearsForm(o) && o.error.name != "AbortError"
  {
    match o
    case Responded(ok) => if ok then None else Some(ServerErrorAlert)
    case Threw(e) =>
      if e.name == "AbortError" then Some(TimeoutAlert)
      else if Contains(e.message, "fetch") then Some(OfflineSimulatedAlert)
      else Some(UnexpectedAlert)
  }

  /** The outbound payload: fields copied as typed, CPF and phone reduced to their digits. */
  function BuildRequest(f: FormData): (r: ParticipantRequest)
    ensures AllDigits(r.cpf) && AllDigits(r.phone)
    ensures Digits(r.cpf) == Digits(f.cpf) && Digits(r.phone) == Digits(f.celular)
    ensures r.name == f.nomeCompleto && r.email == f.email && r.birthDate == f.dataNascimento
    ensures r.cityId == f.cidade && r.reason == f.testemunho
  {
    DigitsIdempotent(f.cpf);
    DigitsIdempotent(f.celular);
    ParticipantRequest(
      f.nomeCompleto,
      f.email,
      Digits(f.celular),
      Digits(f.cpf),
      f.dataNascimento,
      f.cidade,
      f.testemunho)
  }

  /**
   * The `required` text inputs of the form: the browser fires the submit event
   * only when all of them are non-empty. The city select and the regulation
   * checkbox are not marked `required`.
   */
  predicate RequiredFilled(f: FormData) {
    f.nomeCompleto != "" && f.cpf != "" && f.dataNascimento != "" &&
    f.celular != "" && f.email != "" && f.testemunho != ""
  }

  /** A value the CPF input can hold: a formatted string of at most eleven digits. */
  predicate StoredCpf(s: string) {
    FormatCPF(s) == s && |Digits(s)| <= 11
  }

  /** A value the phone input can hold: a formatted string of at most eleven digits. */
  predicate StoredPhone(s: string) {
    FormatPhone(s) == s && |Digits(s)| <= 11
  }

  /** A stored CPF is the bare digits while incomplete and exactly the ddd.ddd.ddd-dd mask once complete. */
  lemma StoredCpfShape(s: string)
    requires StoredCpf(s)
    ensures |Digits(s)| < 11 ==> s == Digits(s)
    ensures |Digits(s)| == 11 ==> FitsMask(s, CpfMask)
    ensures |BuildRequest(EmptyForm.(cpf := s)).cpf| <= 11
  {
  }

  class HomePage {
    var isModalOpen: bool
    var cities: seq<City>
    var isLoadingCities: bool
    var isSubmitting: bool
    var formData: FormData
    var ageValidation: AgeValidation

    /** The masked inputs hold formatted values and the age record comes from one of its branches. */
    ghost predicate Valid()
      reads this
    {
      StoredCpf(formData.cpf) && StoredPhone(formData.celular) && Consistent(ageValidation)
    }

    constructor ()
      ensures Valid()
      ensures !isModalOpen && cities == [] && isLoadingCities && !isSubmitting
      ensures formData == EmptyForm && ageValidation == Neutral
    {
      isModalOpen := false;
      cities := [];
      isLoadingCities := true;
      isSubmitting := false;
      formData := EmptyForm;
      ageValidation := Neutral;
    }

    /** The city-list effect: the fetched list, or the built-in one on any failure; loading ends either way. */
    method LoadCities(fetched: CityFetch)
      requires Valid()
      modifies this`cities, this`isLoadingCities
      ensures Valid()
      ensures cities == if fetched.CitiesLoaded? then fetched.list else FallbackCities
      ensures !isLoadingCities
    {
      match fetched {
        case CitiesLoaded(list) =>
          cities := list;
        case CityFetchFailed =>
          cities := FallbackCities;
      }
      isLoadingCities := false;
    }

    /** The CPF input: store the formatted text unless it would hold more than eleven digits. */
    method ChangeCpf(raw: string)
      requires Valid()
      modifies this`formData
      ensures Valid()
      ensures formData == if |Digits(raw)| <= 11 then old(formData).(cpf := FormatCPF(raw)) else old(formData)
      ensures |Digits(raw)| <= 11 ==> Digits(formData.cpf) == Digits(raw)
    {
      var formatted := FormatCPF(raw);
      FormatCPFKeepsDigits(raw);
      if |Digits(formatted)| <= 11 {
        FormatCPFIdempotent(raw);
        formData := formData.(cpf := formatted);
      }
    }

    /** The phone input: store the formatted text unless it would hold more than eleven digits. */
    method ChangePhone(raw: string)
      requires Valid()
      modifies this`formData
      ensures Valid()
      ensures formData == if |Digits(raw)| <= 11 then old(formData).(celular := FormatPhone(raw)) else old(formData)
      ensures |Digits(raw)| <= 11 ==> Digits(formData.celular) == Digits(raw)
    {
      var formatted := FormatPhone(raw);
      FormatPhoneKeepsDigits(raw);
      if |Digits(formatted)| <= 11 {
        FormatPhoneIdempotent(raw);
        formData := formData.(celular := formatted);
      }
    }

    /**
     * `handleBirthDateChange`: store the date text and replace the age record;
     * `birth` is the calendar date `value` names and `today` the current date.
     */
    method HandleBirthDateChange(value: string, birth: Date, today: Date)
      requires Valid()
      modifies this`formData, this`ageValidation
      ensures Valid()
      ensures formData == old(formData).(dataNascimento := value)
      ensures ageValidation == EvaluateBirthDate(value, birth, today)
      ensures ageValidation.needsAuthorization ==> ageValidation.isValid && 12 <= ageValidation.age < 18
    {
      formData := formData.(dataNascimento := value);
      if value != "" {
        var age := CalculateAge(today, birth);
        if age < 12 {
          ageValidation := AgeValidation(false, age, false, BelowMinimum);
        } else if age > 100 {
          ageValidation := AgeValidation(false, age, false, NotAllowed);
        } else if age < 18 {
          ageValidation := AgeValidation(true, age, true, GuardianNeeded);
        } else {
          ageValidation := AgeValidation(true, age, false, AgeAccepted);
        }
      } else {
        ageValidation := AgeValidation(true, 0, false, NoMessage);
      }
    }

    method ChangeName(value: string)
      requires Valid()
      modifies this`formData
      ensures Valid() && formData == old(formData).(nomeCompleto := value)
    {
      formData := formData.(nomeCompleto := value);
    }

    method ChangeEmail(value: string)
      requires Valid()
      modifies this`formData
      ensures Valid() && formData == old(formData).(email := value)
    {
      formData := formData.(email := value);
    }

    method SelectCity(id: string)
      requires Valid()
      modifies this`formData
      ensures Valid() && formData == old(formData).(cidade := id)
    {
      formData := formData.(cidade := id);
    }

    method ChangeReason(value: string)
      requires Valid()
      modifies this`formData
      ensures Valid() && formData == old(formData).(testemunho := value)
    {
      formData := formData.(testemunho := value);
    }

    method ChangeAccepted(checked: bool)
      requires Valid()
      modifies this`formData
      ensures Valid() && formData == old(formData).(aceitoRegulamento := checked)
    {
      formData := formData.(aceitoRegulamento := checked);
    }

    /** The dialog's `onOpenChange`: the trigger button opens it, closing it hides the form. */
    method SetModalOpen(open: bool)
      requires Valid()
      modifies this`isModalOpen
      ensures Valid() && isModalOpen == open
    {
      isModalOpen := open;
    }

    /** The pre-flight checks of `handleSubmit`. */
    predicate PreflightPasses()
      reads this
    {
      ageValidation.isValid && formData.aceitoRegulamento
    }

    /** The submit button is enabled only when idle, cities are loaded and the pre-flight checks pass. */
    function SubmitEnabled(): (enabled: bool)
      reads this
      ensures enabled ==> PreflightPasses() && !isSubmitting
      ensures !formData.aceitoRegulamento || isLoadingCities ==> !enabled
      ensures !isSubmitting && !isLoadingCities && PreflightPasses() ==> enabled
    {
      !(isSubmitting || isLoadingCities || !ageValidation.isValid || !formData.aceitoRegulamento)
    }

    /**
     * The part of `handleSubmit` before the request: the two checks, then
     * `isSubmitting` is raised and the digits-only payload built.
     */
    method BeginSubmit() returns (request: Option<ParticipantRequest>, alert: Option<Alert>)
      requires Valid()
      modifies this`isSubmitting
      ensures Valid()
      ensures !ageValidation.isValid ==> alert == Some(AgeAlert)
      ensures ageValidation.isValid && !formData.aceitoRegulamento ==> alert == Some(RegulationAlert)
      ensures !PreflightPasses() ==> request == None && isSubmitting == old(isSubmitting)
      ensures PreflightPasses() ==> request == Some(BuildRequest(formData)) && alert == None && isSubmitting
    {
      if !ageValidation.isValid {
        return None, Some(AgeAlert);
      }
      if !formData.aceitoRegulamento {
        return None, Some(RegulationAlert);
      }
      isSubmitting := true;
      request := Some(BuildRequest(formData));
      alert := None;
    }

    /**
     * The part of `handleSubmit` after the request: clear the form and close the
     * modal on an ok response or a "fetch" error, leave them on any other outcome,
     * and release `isSubmitting` in every case.
     */
    method FinishSubmit(outcome: NetworkOutcome) returns (alert: Option<Alert>, redirected: bool)
      requires Valid()
      modifies this`formData, this`isModalOpen, this`isSubmitting
      ensures Valid()
      ensures !isSubmitting
      ensures formData == if ClearsForm(outcome) then EmptyForm else old(formData)
      ensures isModalOpen == if ClearsForm(outcome) then false else old(isModalOpen)
      ensures redirected == ClearsForm(outcome)
      ensures alert == OutcomeAlert(outcome)
    {
      alert, redirected := None, false;
      match outcome {
        case Responded(ok) =>
          if ok {
            formData := EmptyForm;
            isModalOpen := false;
            redirected := true;
          } else {
            alert := Some(ServerErrorAlert);
          }
        case Threw(error) =>
          if error.name == "AbortError" {
            alert := Some(TimeoutAlert);
          } else if Contains(error.message, "fetch") {
            alert := Some(OfflineSimulatedAlert);
            formData := EmptyForm;
            isModalOpen := false;
            redirected := true;
          } else {
            alert := Some(UnexpectedAlert);
          }
      }
      isSubmitting := false;
    }

    /** `handleSubmit` as a whole, for a given outcome of the request it sends. */
    method Submit(outcome: NetworkOutcome) returns (request: Option<ParticipantRequest>, alert: Option<Alert>, redirected: bool)
      requires Valid()
      modifies this`formData, this`isModalOpen, this`isSubmitting
      ensures Valid()
      ensures !old(ageValidation.isValid) ==> alert == Some(AgeAlert)
      ensures old(ageValidation.isValid) && !old(formData.aceitoRegulamento) ==> alert == Some(RegulationAlert)
      ensures !old(PreflightPasses()) ==> request == None && !redirected
      ensures !old(PreflightPasses()) ==> formData == old(formData) && isSubmitting == old(isSubmitting)
      ensures !old(PreflightPasses()) ==> isModalOpen == old(isModalOpen)
      ensures old(PreflightPasses()) ==> request == Some(BuildRequest(old(formData))) && !isSubmitting
      ensures old(PreflightPasses()) ==> formData == (if ClearsForm(outcome) then EmptyForm else old(formData))
      ensures old(PreflightPasses()) ==> isModalOpen == (if ClearsForm(outcome) then false else old(isModalOpen))
      ensures old(PreflightPasses()) ==> redirected == ClearsForm(outcome) && alert == OutcomeAlert(outcome)
      ensures ageValidation == old(ageValidation)
    {
      request, alert := BeginSubmit();
      redirected := false;
      if request.Some? {
        alert, redirected := FinishSubmit(outcome);
      }
    }
  }

  /** "Failed to fetch" counts as a soft success; an abort never does, whatever its message. */
  lemma FetchErrorClears()
    ensures ClearsForm(Threw(JsError("TypeError", "Failed to fetch")))
    ensures !ClearsForm(Threw(JsError("AbortError", "fetch aborted")))
    ensures !ClearsForm(Responded(false))
  {
    assert OccursAt("Failed to fetch", "fetch", 10);
    ContainsOccurrence("Failed to fetch", "fetch");
  }

  /** The built-in list names five cities with distinct identifiers. */
  lemma FallbackCitiesDistinct()
    ensures |FallbackCities| == 5
    ensures forall i, j :: 0 <= i < j < |FallbackCities| ==> FallbackCities[i].id != FallbackCities[j].id
  {
  }

  /** Fills in every field of the form, as a visitor does before pressing the button. */
  method FillForm(page: HomePage, raw: string, phone: string, name: string, email: string,
                  reason: string, dateText: string, birth: Date, today: Date)
    requires page.Valid() && !page.isLoadingCities && !page.isSubmitting
    requires 1 <= |Digits(raw)| <= 11 && 1 <= |Digits(phone)| <= 11
    requires name != "" && email != "" && reason != "" && dateText != ""
    requires 12 <= CalculateAge(today, birth) <= 100
    modifies page`formData, page`ageValidation
    ensures page.Valid() && RequiredFilled(page.formData) && page.SubmitEnabled()
    ensures Digits(page.formData.cpf) == Digits(raw)
  {
    page.ChangeName(name);
    page.ChangeCpf(raw);
    page.HandleBirthDateChange(dateText, birth, today);
    page.ChangePhone(phone);
    page.ChangeEmail(email);
    page.SelectCity(FallbackCities[0].id);
    page.ChangeReason(reason);
    page.ChangeAccepted(true);
  }

  /**
   * Whatever is typed into the CPF input, if it holds one to eleven digits and
   * the rest of the form is filled in for someone aged 12 to 100, those digits
   * are what the submission sends, checksum or not; an ok response then
   * empties the form and closes the dialog.
   */
  method CpfPayloadScenario(raw: string, phone: string, name: string, email: string,
                            reason: string, dateText: string, birth: Date, today: Date)
    requires 1 <= |Digits(raw)| <= 11 && 1 <= |Digits(phone)| <= 11
    requires name != "" && email != "" && reason != "" && dateText != ""
    requires 12 <= CalculateAge(today, birth) <= 100
  {
    var page := new HomePage();
    page.LoadCities(CityFetchFailed);
    page.SetModalOpen(true);
    FillForm(page, raw, phone, name, email, reason, dateText, birth, today);
    var request, alert, redirected := page.Submit(Responded(true));
    assert request.Some? && request.value.cpf == Digits(raw);
    assert page.formData == EmptyForm && !page.isModalOpen && !page.isSubmitting;
    assert redirected && alert == None;
  }

  /** A birth date twenty years back, the cities loaded and the regulation accepted enable the button. */
  method AdultScenario()
  {
    var page := new HomePage();
    page.LoadCities(CityFetchFailed);
    page.HandleBirthDateChange("2006-05-10", Date(2006, 5, 10), Date(2026, 10, 15));
    assert page.ageValidation.age == 20 && page.ageValidation.isValid;
    assert !page.ageValidation.needsAuthorization;
    page.ChangeAccepted(true);
    assert page.SubmitEnabled();
  }

  /** Without the regulation accepted nothing is sent and nothing changes. */
  method UnacceptedScenario()
  {
    var page := new HomePage();
    page.ChangeName("Maria");
    var before := page.formData;
    var request, alert, redirected := page.Submit(Responded(true));
    assert request == None && alert == Some(RegulationAlert);
    assert page.formData == before && !page.isSubmitting;
  }
}
