/** What one chat turn reads and returns: the client-held session (the
    collected details plus the stack of visited stages), the UI directive
    that tells the widget what to render, and the reasons a turn can fail. */
module Sessions {
  import opened Wrappers
  import opened Stages
  import opened Catalog
  import opened Text

  /** The `user_details` dictionary: string fields plus `stage_history`. A
      request without a history is treated as one with an empty history. */
  datatype Session = Session(fields: map<string, string>, history: seq<Stage>)

  /** The session a reset produces: no fields, empty history. */
  const Fresh := Session(map[], [])

  // Field names of the session
  const NameKey := "name"
  const EmailKey := "email"
  const PhoneKey := "phone"
  const CountryKey := "country"
  const CompanyKey := "company"
  const CompanySizeKey := "company_size"
  const BudgetKey := "budget"
  const MainServiceKey := "main_service"
  const SubCategoryKey := "sub_category"
  const CategoryKey := "category"
  const CustomNameKey := "custom_category_name"
  const DescriptionKey := "description"
  const ContactKey := "contact"

  /** `user_details.get(k)`. */
  function Field(s: Session, k: string): Option<string> {
    if k in s.fields then Some(s.fields[k]) else None
  }

  /** `user_details.get(k)` used as a condition: present and non-empty. */
  predicate Truthy(s: Session, k: string) {
    k in s.fields && s.fields[k] != ""
  }

  /** `user_details[k] = v`. */
  function SetField(s: Session, k: string, v: string): (r: Session)
    ensures r.fields == s.fields[k := v] && r.history == s.history
  {
    s.(fields := s.fields[k := v])
  }

  /** `user_details.pop(k, None)`. */
  function RemoveField(s: Session, k: string): (r: Session)
    ensures k !in r.fields && r.history == s.history
    ensures forall j :: j != k ==> Field(r, j) == Field(s, j)
  {
    s.(fields := s.fields - {k})
  }

  /** Only the keys in `touched` may differ between the two sessions. */
  ghost predicate SameExcept(a: Session, b: Session, touched: set<string>) {
    forall k :: k !in touched ==> Field(a, k) == Field(b, k)
  }

  datatype ButtonStyle = Pills | Cards

  /** The `ui_elements` directive of a reply. */
  datatype Ui =
    | NoUi
    | Buttons(style: Option<ButtonStyle>, options: seq<string>)
    | PhoneForm(countries: seq<string>)
    | Dropdown(options: seq<string>)
    | FileUpload(target: Option<(string, string)>)
    | StoreData(data: Row)

  /** A successful turn: the next stage, the session to send back, the UI
      directive, and whether the turn called `save_lead` with the returned
      session's fields. The call's own result is ignored by both services;
      whether the store accepted the lead is `LeadStore.SaveLead`'s concern. */
  datatype Reply = Reply(next: Stage, session: Session, ui: Ui, saveRequested: bool)

  /** Why a turn fails: a session key the code indexes directly is missing,
      the stored country is not a key of the older service's table (both
      server errors), or the older service rejects the stage. */
  datatype ChatError = MissingKey(key: string) | UnknownCountry(country: string) | InvalidStage(stage: string)

  type Turn = Result<Reply, ChatError>

  /** The options of the reply after the name, in the deployed service. */
  const WelcomeOptions := ["Explore Services", "Career Opportunities"]

  /** An address validator: the normalised address, or `None` when the
      text is rejected. */
  type EmailValidator = string -> Option<string>

  /** The text of a request: absent or empty input is "", anything else is
      stripped of surrounding whitespace. */
  function InputText(raw: Option<string>): (t: string)
    ensures raw.None? ==> t == ""
    ensures raw.Some? ==> t == Strip(raw.value)
  {
    match raw
    case None => ""
    case Some(text) => if text == "" then "" else Strip(text)
  }
}
