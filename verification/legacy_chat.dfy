/** The chat turn of the older root service (main.py). It differs from the
    deployed one: the back sentinel is checked first, going back forgets the
    fields of the stage re-entered, every turn at a recorded stage is pushed,
    choices are matched exactly, the phone number goes through a parser, and
    stages without a rule are rejected. */
module LegacyChat {
  import opened Wrappers
  import opened Text
  import opened Assoc
  import opened Catalog
  import opened Countries
  import opened Budget
  import opened Stages
  import opened Sessions

  const BackCommand := "__GO_BACK__"
  const NewProposal := "new proposal"
  const ExploreChoice := "Explore Products or Services"
  const JobChoice := "Looking for a Job"
  const LegacyWelcome := [ExploreChoice, JobChoice]
  const LegacySizeOptions := ["0-10", "10-100", "100-500", "500+"]
  const Others := "Others"
  const CustomService := "Custom Service"
  const NoFeatures := "No additional features requested."
  const ConfirmYes := "yes, send proposal"
  const LegacyConfirmOptions := ["Yes, Send Proposal", "No, I Have Questions"]

  /** Stages that are never pushed. */
  const Unrecorded := {Ended, GeneralChat, FinalGeneration, GetName}

  /** The phone library: the number and the country's ISO code give the
      E.164 form when the number is valid, and nothing otherwise. */
  type PhoneParser = (string, string) -> Option<string>

  /** The cost estimator for a custom service: the service name, the main
      service and the example rows give an estimate, or nothing. An empty
      estimate is falsy in Python and is treated like nothing. */
  type Estimator = (string, string, seq<Row>) -> Option<Row>

  /** The oracles a turn consults. */
  datatype Oracles = Oracles(validate: EmailValidator, parsePhone: PhoneParser, estimate: Estimator)

  // ---------------------------------------------------------------------
  // Going back

  /** The fields each stage asks for, which going back to it forgets. */
  function Cleared(target: Stage): set<string> {
    match target
    case GetName => {NameKey}
    case GetEmail => {EmailKey}
    case GetPhone => {PhoneKey, CountryKey}
    case GetCompany => {CompanyKey}
    case GetCompanySize => {CompanySizeKey}
    case GetBudget => {BudgetKey}
    case GetMainService => {MainServiceKey}
    case GetSubCategory => {SubCategoryKey}
    case GetSpecificService => {CategoryKey, CustomNameKey}
    case _ => {}
  }

  /** Removes every key of `keys` from the session's fields. */
  function Forget(s: Session, keys: set<string>): (r: Session)
    ensures r.fields == s.fields - keys && r.history == s.history
  {
    s.(fields := s.fields - keys)
  }

  /** The options for the specific service of `ms` under `sub`. */
  function SpecificOptions(cat: Catalog, ms: string, sub: string): seq<string> {
    if ms == AppDevelopment then GetOr(cat.appSubCategories, sub, []) + [Others]
    else Keys(CategoriesOf(cat, ms, sub)) + [Others]
  }

  function BackToBudget(s: Session): Turn {
    if CountryKey !in s.fields then Err(MissingKey(CountryKey))
    else match Get(LegacyCountries, s.fields[CountryKey])
      case None => Err(UnknownCountry(s.fields[CountryKey]))
      case Some(ci) => Ok(Reply(GetBudget, s, Buttons(Some(Pills), LocalBudgetOptions(ci)), false))
  }

  function BackToSubCategory(cat: Catalog, s: Session): Turn {
    if MainServiceKey !in s.fields then Err(MissingKey(MainServiceKey))
    else if s.fields[MainServiceKey] == AppDevelopment then
      Ok(Reply(GetSubCategory, s, Buttons(Some(Cards), Keys(cat.appSubCategories)), false))
    else Ok(Reply(GetMainService, s, Buttons(Some(Cards), cat.mainServices), false))
  }

  function BackToSpecificService(cat: Catalog, s: Session): Turn {
    if MainServiceKey !in s.fields then Err(MissingKey(MainServiceKey))
    else
      var sub := Field(s, SubCategoryKey).GetOr(DefaultSub);
      Ok(Reply(GetSpecificService, s, Buttons(Some(Pills), SpecificOptions(cat, s.fields[MainServiceKey], sub)), false))
  }

  /** `go_back_to_stage`: forget the target's fields, then re-enter it.
      Going back forgets exactly the target's own fields and keeps the
      history it is given. It lands on the target, except that the
      sub-category question of a service other than App Development is
      skipped back to the main-service question; it fails only where the code
      indexes the session or the country table directly. */
  function GoBackTo(cat: Catalog, target: Stage, s: Session): (r: Turn)
    ensures r.Err? <==>
      (target == GetBudget && (CountryKey !in s.fields || s.fields[CountryKey] !in Keys(LegacyCountries)))
      || ((target == GetSubCategory || target == GetSpecificService) && MainServiceKey !in s.fields)
    ensures r.Ok? ==>
      r.value.session.fields == s.fields - Cleared(target) &&
      r.value.session.history == s.history &&
      r.value.next == (if target == GetSubCategory && Field(s, MainServiceKey) != Some(AppDevelopment) then GetMainService else target)
  {
    var t := Forget(s, Cleared(target));
    match target
    case GetName => Ok(Reply(GetName, t, NoUi, false))
    case InitialChoice => Ok(Reply(InitialChoice, t, Buttons(Some(Pills), LegacyWelcome), false))
    case GetEmail => Ok(Reply(GetEmail, t, NoUi, false))
    case GetPhone => Ok(Reply(GetPhone, t, PhoneForm(LegacyNames), false))
    case GetCompany => Ok(Reply(GetCompany, t, NoUi, false))
    case GetCompanySize => Ok(Reply(GetCompanySize, t, Dropdown(LegacySizeOptions), false))
    case GetBudget => BackToBudget(t)
    case GetMainService => Ok(Reply(GetMainService, t, Buttons(Some(Cards), cat.mainServices), false))
    case GetSubCategory => BackToSubCategory(cat, t)
    case GetSpecificService => BackToSpecificService(cat, t)
    case _ => Ok(Reply(target, t, NoUi, false))
  }

  // ---------------------------------------------------------------------
  // One rule per stage

  function InitialChoiceTurn(s: Session, input: string): Turn {
    if input == ExploreChoice then Ok(Reply(GetEmail, s, NoUi, false))
    else if input == JobChoice then Ok(Reply(JobApplication, s, FileUpload(None), false))
    else Err(InvalidStage(Name(InitialChoice)))
  }

  function EmailTurn(validate: EmailValidator, s: Session, input: string): Reply {
    match validate(input)
    case Some(address) => Reply(GetPhone, SetField(s, EmailKey, address), PhoneForm(LegacyNames), false)
    case None => Reply(GetEmail, s, NoUi, false)
  }

  /** The accepted phone entry: the country before the first colon, which
      must be in the table, and the parser's form of the number after it. */
  function PhoneEntry(parsePhone: PhoneParser, input: string): Option<(string, string)> {
    match SplitFirst(input, ':')
    case None => None
    case Some((country, number)) =>
      match Get(LegacyCountries, country)
      case None => None
      case Some(ci) =>
        match parsePhone(number, ci.isoCode)
        case None => None
        case Some(e164) => Some((country, e164))
  }

  function PhoneTurn(parsePhone: PhoneParser, s: Session, input: string): Reply {
    match PhoneEntry(parsePhone, input)
    case Some((country, e164)) =>
      Reply(GetCompany, SetField(SetField(s, PhoneKey, e164), CountryKey, country), NoUi, true)
    case None => Reply(GetPhone, s, PhoneForm(LegacyNames), false)
  }

  function CompanySizeTurn(s: Session, input: string): Turn {
    var t := SetField(s, CompanySizeKey, input);
    if CountryKey !in s.fields then Err(MissingKey(CountryKey))
    else match Get(LegacyCountries, s.fields[CountryKey])
      case None => Err(UnknownCountry(s.fields[CountryKey]))
      case Some(ci) => Ok(Reply(GetBudget, t, Buttons(Some(Pills), LocalBudgetOptions(ci)), false))
  }

  function MainServiceTurn(cat: Catalog, s: Session, input: string): Reply {
    var t := SetField(s, MainServiceKey, input);
    if input == AppDevelopment then
      Reply(GetSubCategory, t, Buttons(Some(Cards), Keys(cat.appSubCategories)), false)
    else if input in Keys(cat.otherSubCategories) then
      Reply(GetSubCategory, t, Buttons(Some(Cards), GetOr(cat.otherSubCategories, input, [])), false)
    else
      Reply(GetSpecificService, t, Buttons(Some(Cards), Keys(CategoriesOf(cat, input, DefaultSub)) + [Others]), false)
  }

  function SubCategoryTurn(cat: Catalog, s: Session, input: string): Turn {
    var t := SetField(s, SubCategoryKey, input);
    if MainServiceKey !in s.fields then Err(MissingKey(MainServiceKey))
    else Ok(Reply(GetSpecificService, t, Buttons(Some(Pills), SpecificOptions(cat, s.fields[MainServiceKey], input)), false))
  }

  /** Whether the catalog has `input` as a category of the session's main
      service and sub-category. */
  predicate KnownCategory(cat: Catalog, s: Session, input: string)
    requires MainServiceKey in s.fields
  {
    input in Keys(CategoriesOf(cat, s.fields[MainServiceKey], Field(s, SubCategoryKey).GetOr(DefaultSub)))
  }

  function SpecificServiceTurn(cat: Catalog, s: Session, input: string): Turn {
    var t := SetField(s, CategoryKey, input);
    if MainServiceKey !in s.fields then Err(MissingKey(MainServiceKey))
    else if !KnownCategory(cat, s, input) then
      Ok(Reply(GetOtherServiceName, SetField(SetField(t, CustomNameKey, input), CategoryKey, CustomService), NoUi, false))
    else if input == Others then Ok(Reply(GetOtherServiceName, t, NoUi, false))
    else Ok(Reply(GetOptionalFeatures, t, NoUi, false))
  }

  function OtherServiceNameTurn(cat: Catalog, estimate: Estimator, s: Session, input: string): Turn {
    var t := if CustomNameKey in s.fields then s else SetField(s, CustomNameKey, input);
    if MainServiceKey !in s.fields then Err(MissingKey(MainServiceKey))
    else
      var ms := s.fields[MainServiceKey];
      match estimate(t.fields[CustomNameKey], ms, AllRowsOf(cat, ms))
      case Some(estimateRow) =>
        if |estimateRow| > 0 then Ok(Reply(GetOptionalFeatures, t, StoreData(estimateRow), false))
        else Ok(Reply(GetSpecificService, t, NoUi, false))
      case None => Ok(Reply(GetSpecificService, t, NoUi, false))
  }

  /** The confirmation summary quotes the address, phone and company, in that
      order; the first one missing fails the turn. */
  function OptionalFeaturesTurn(s: Session, input: string): Turn {
    var t := SetField(s, DescriptionKey, if input == "" then NoFeatures else input);
    if EmailKey !in s.fields then Err(MissingKey(EmailKey))
    else if PhoneKey !in s.fields then Err(MissingKey(PhoneKey))
    else if CompanyKey !in s.fields then Err(MissingKey(CompanyKey))
    else Ok(Reply(ConfirmProposal, t, Buttons(Some(Pills), LegacyConfirmOptions), false))
  }

  function ConfirmTurn(s: Session, lower: string): Reply {
    if lower == ConfirmYes then Reply(FinalGeneration, s, NoUi, false)
    else Reply(GeneralChat, s, NoUi, false)
  }

  predicate AsksForProposal(lower: string) {
    IsSubstring("where is my", lower) || IsSubstring("get the proposal", lower) || IsSubstring("send it", lower)
  }

  /** Whether the input contains "no", "bye" or "goodbye" anywhere: a
      substring test, so "i know" or "nothing else" counts as well. */
  predicate SaysGoodbye(lower: string) {
    IsSubstring("no", lower) || IsSubstring("bye", lower) || IsSubstring("goodbye", lower)
  }

  /** The closing rule shared by general chat, final generation and the job
      application: an upload notice or a question about the proposal keeps
      chatting, any input containing "no", "bye" or "goodbye" ends, anything
      else goes to the general answer. */
  function ClosingTurn(stage: Stage, s: Session, input: string, lower: string): Reply {
    if stage == JobApplication && StartsWith(input, "Uploaded:") then Reply(GeneralChat, s, NoUi, false)
    else if AsksForProposal(lower) then Reply(GeneralChat, s, NoUi, false)
    else if SaysGoodbye(lower) then Reply(Ended, s, NoUi, false)
    else Reply(GeneralChat, s, NoUi, false)
  }

  /** The stage rules, applied to the session after the push. They never
      touch the history; which rule each stage answers with is
      `DispatchRules`. */
  function Dispatch(cat: Catalog, o: Oracles, stage: Stage, s: Session, input: string, lower: string): (r: Turn)
    ensures r.Ok? ==> r.value.session.history == s.history
  {
    match stage
    case GetName =>
      Ok(Reply(InitialChoice, SetField(s, NameKey, input), Buttons(Some(Pills), LegacyWelcome), false))
    case InitialChoice => InitialChoiceTurn(s, input)
    case GetEmail => Ok(EmailTurn(o.validate, s, input))
    case GetPhone => Ok(PhoneTurn(o.parsePhone, s, input))
    case GetCompany =>
      Ok(Reply(GetCompanySize, SetField(s, CompanyKey, input), Dropdown(LegacySizeOptions), false))
    case GetCompanySize => CompanySizeTurn(s, input)
    case GetBudget =>
      Ok(Reply(GetMainService, SetField(s, BudgetKey, input), Buttons(Some(Cards), cat.mainServices), false))
    case GetMainService => Ok(MainServiceTurn(cat, s, input))
    case GetSubCategory => SubCategoryTurn(cat, s, input)
    case GetSpecificService => SpecificServiceTurn(cat, s, input)
    case GetOtherServiceName => OtherServiceNameTurn(cat, o.estimate, s, input)
    case GetOptionalFeatures => OptionalFeaturesTurn(s, input)
    case ConfirmProposal => Ok(ConfirmTurn(s, lower))
    case GeneralChat => Ok(ClosingTurn(stage, s, input, lower))
    case FinalGeneration => Ok(ClosingTurn(stage, s, input, lower))
    case JobApplication => Ok(ClosingTurn(stage, s, input, lower))
    case _ => Err(InvalidStage(Name(stage)))
  }

  /** History tracking: every recorded stage is pushed, repeats included. */
  function Record(stage: Stage, s: Session): Session {
    if stage in Unrecorded then s else s.(history := s.history + [stage])
  }

  /** Whether "new proposal" restarts the conversation: the phrase occurs in
      the lower-cased input and a non-empty name is stored. */
  predicate Restarts(s: Session, lower: string) {
    IsSubstring(NewProposal, lower) && Truthy(s, NameKey)
  }

  /** Whether the input asks for a person at a stage that offers one. */
  predicate AsksForPerson(stage: Stage, lower: string) {
    (stage == GeneralChat || stage == FinalGeneration)
    && (IsSubstring("connect", lower) || IsSubstring("talk to", lower))
  }

  /** `handle_chat` of the root service. An ordinary turn at a recorded
      stage grows the history by exactly that stage, even when it is already
      on top, and at an unrecorded stage leaves it alone; an interrupt keeps
      a prefix of the history. */
  function HandleChat(cat: Catalog, o: Oracles, stage: Stage, s: Session, raw: Option<string>): (r: Turn)
    ensures r.Ok? && Ordinary(stage, s, InputText(raw)) ==>
      r.value.session.history == if stage in Unrecorded then s.history else s.history + [stage]
    ensures r.Ok? && !Ordinary(stage, s, InputText(raw)) ==> r.value.session.history <= s.history
  {
    var input := InputText(raw);
    if Ordinary(stage, s, input) then
      Dispatch(cat, o, stage, Record(stage, s), input, Lower(input))
    else Interrupt(cat, stage, s, input)
  }

  /** A turn that reaches the stage rules. */
  predicate Ordinary(stage: Stage, s: Session, input: string) {
    input != BackCommand && !Restarts(s, Lower(input)) && !AsksForPerson(stage, Lower(input))
  }

  /** The rules tested before the stage rules, in order: the back sentinel,
      "new proposal" with a stored name, a request for a person. */
  function Interrupt(cat: Catalog, stage: Stage, s: Session, input: string): Turn
    requires !Ordinary(stage, s, input)
  {
    var lower := Lower(input);
    if input == BackCommand then
      if |s.history| == 0 then Ok(Reply(stage, s, NoUi, false))
      else GoBackTo(cat, s.history[|s.history| - 1], s.(history := s.history[..|s.history| - 1]))
    else if Restarts(s, lower) then
      Ok(Reply(InitialChoice, Session(map[NameKey := s.fields[NameKey]], []), Buttons(Some(Pills), LegacyWelcome), false))
    else Ok(Reply(GeneralChat, s, NoUi, false))
  }

  // ---------------------------------------------------------------------
  // Properties

  /** An ordinary turn is the stage rule applied to the recorded session. */
  lemma Dispatched(cat: Catalog, o: Oracles, stage: Stage, s: Session, raw: Option<string>)
    requires Ordinary(stage, s, InputText(raw))
    ensures HandleChat(cat, o, stage, s, raw) == Dispatch(cat, o, stage, Record(stage, s), InputText(raw), Lower(InputText(raw)))
  {
  }

  /** The rule each stage answers with. */
  lemma DispatchRules(cat: Catalog, o: Oracles, stage: Stage, t: Session, input: string, lower: string)
    ensures stage == GetPhone ==> Dispatch(cat, o, stage, t, input, lower) == Ok(PhoneTurn(o.parsePhone, t, input))
    ensures stage == GetSpecificService ==> Dispatch(cat, o, stage, t, input, lower) == SpecificServiceTurn(cat, t, input)
    ensures stage == GetOtherServiceName ==>
      Dispatch(cat, o, stage, t, input, lower) == OtherServiceNameTurn(cat, o.estimate, t, input)
    ensures stage in {GeneralChat, FinalGeneration, JobApplication} ==>
      Dispatch(cat, o, stage, t, input, lower) == Ok(ClosingTurn(stage, t, input, lower))
    ensures stage in {Ended, PostEngagement, GetEmailForJob} || stage.Unknown? ==>
      Dispatch(cat, o, stage, t, input, lower) == Err(InvalidStage(Name(stage)))
    ensures stage == InitialChoice ==> Dispatch(cat, o, stage, t, input, lower) == InitialChoiceTurn(t, input)
  {
  }

  /** Any other turn is answered by the interrupts. */
  lemma Interrupted(cat: Catalog, o: Oracles, stage: Stage, s: Session, raw: Option<string>)
    requires !Ordinary(stage, s, InputText(raw))
    ensures HandleChat(cat, o, stage, s, raw) == Interrupt(cat, stage, s, InputText(raw))
  {
  }

  /** The back sentinel wins over every other rule, whatever the stage and
      the stored name: with an empty history nothing changes, otherwise one
      entry is popped and only the popped stage's fields are forgotten. */
  lemma BackComesFirst(cat: Catalog, o: Oracles, stage: Stage, s: Session, raw: Option<string>)
    requires InputText(raw) == BackCommand
    ensures var r := HandleChat(cat, o, stage, s, raw);
      (|s.history| == 0 ==> r == Ok(Reply(stage, s, NoUi, false))) &&
      (|s.history| > 0 && r.Ok? ==>
        r.value.session.history == s.history[..|s.history| - 1] &&
        r.value.session.fields == s.fields - Cleared(s.history[|s.history| - 1]))
  {
    Interrupted(cat, o, stage, s, raw);
  }

  /** "new proposal" anywhere in the input, with a stored name, keeps only
      the name and starts again at the first choice. */
  lemma NewProposalKeepsName(cat: Catalog, o: Oracles, stage: Stage, s: Session, raw: Option<string>)
    requires InputText(raw) != BackCommand
    requires IsSubstring(NewProposal, Lower(InputText(raw))) && Truthy(s, NameKey)
    ensures var r := HandleChat(cat, o, stage, s, raw);
      r.Ok? && r.value.next == InitialChoice &&
      r.value.session.fields.Keys == {NameKey} && r.value.session.fields[NameKey] == s.fields[NameKey] &&
      r.value.session.history == []
  {
    var input := InputText(raw);
    assert HandleChat(cat, o, stage, s, raw) == Interrupt(cat, stage, s, input);
    assert Interrupt(cat, stage, s, input)
      == Ok(Reply(InitialChoice, Session(map[NameKey := s.fields[NameKey]], []), Buttons(Some(Pills), LegacyWelcome), false));
  }

  /** Without a stored name the phrase is not intercepted: outside the
      person-request rule, the stage rule answers the recorded session. */
  lemma NewProposalNeedsName(cat: Catalog, o: Oracles, stage: Stage, s: Session, raw: Option<string>)
    requires InputText(raw) != BackCommand && !Truthy(s, NameKey)
    requires !AsksForPerson(stage, Lower(InputText(raw)))
    ensures HandleChat(cat, o, stage, s, raw) == Dispatch(cat, o, stage, Record(stage, s), InputText(raw), Lower(InputText(raw)))
  {
  }

  /** Whether the phone step accepts the input: a known country before the
      first colon and a number the parser accepts for that country's ISO
      code. */
  predicate PhoneAccepted(parsePhone: PhoneParser, input: string) {
    ':' in input &&
    (var (country, number) := SplitFirst(input, ':').value;
     country in Keys(LegacyCountries) && parsePhone(number, Get(LegacyCountries, country).value.isoCode).Some?)
  }

  lemma PhoneTurnRules(parsePhone: PhoneParser, t: Session, input: string)
    ensures var r := PhoneTurn(parsePhone, t, input);
      (r.next == GetCompany <==> PhoneAccepted(parsePhone, input)) && (r.saveRequested <==> PhoneAccepted(parsePhone, input)) &&
      (PhoneAccepted(parsePhone, input) ==>
        var (country, number) := SplitFirst(input, ':').value;
        r.session.fields == t.fields[PhoneKey := parsePhone(number, Get(LegacyCountries, country).value.isoCode).value][CountryKey := country]) &&
      (!PhoneAccepted(parsePhone, input) ==> r.next == GetPhone && r.session == t)
  {
    var split := SplitFirst(input, ':');
    if split.Some? {
      var (country, number) := split.value;
      var ci := Get(LegacyCountries, country);
      if ci.Some? && parsePhone(number, ci.value.isoCode).Some? {
        assert PhoneEntry(parsePhone, input) == Some((country, parsePhone(number, ci.value.isoCode).value));
      } else {
        assert PhoneEntry(parsePhone, input).None?;
      }
    }
  }

  /** The phone rule accepts exactly a known country before the first colon
      and a number the parser accepts for that country's ISO code; it then
      stores the parser's form and the country and requests the lead save. Every
      failure asks again with the fields unchanged. */
  lemma PhoneAcceptance(cat: Catalog, o: Oracles, s: Session, raw: Option<string>)
    requires Ordinary(GetPhone, s, InputText(raw))
    ensures var input := InputText(raw);
      var r := HandleChat(cat, o, GetPhone, s, raw);
      var accepted := PhoneAccepted(o.parsePhone, input);
      r.Ok? && (r.value.next == GetCompany <==> accepted) && (r.value.saveRequested <==> accepted) &&
      (accepted ==>
        var (country, number) := SplitFirst(input, ':').value;
        r.value.session.fields == s.fields[PhoneKey := o.parsePhone(number, Get(LegacyCountries, country).value.isoCode).value][CountryKey := country]) &&
      (!accepted ==> r.value.next == GetPhone && r.value.session.fields == s.fields)
  {
    var input := InputText(raw);
    var t := Record(GetPhone, s);
    Dispatched(cat, o, GetPhone, s, raw);
    DispatchRules(cat, o, GetPhone, t, input, Lower(input));
    assert t.fields == s.fields;
    PhoneTurnRules(o.parsePhone, t, input);
  }

  /** The specific-service rule: a category the catalog does not list
      becomes a custom service named after the input; "Others" and unknown
      categories ask for a description, a known category moves on. */
  lemma SpecificServiceRules(cat: Catalog, o: Oracles, s: Session, raw: Option<string>)
    requires Ordinary(GetSpecificService, s, InputText(raw))
    requires MainServiceKey in s.fields
    ensures var input := InputText(raw);
      var r := HandleChat(cat, o, GetSpecificService, s, raw);
      r.Ok? &&
      (!KnownCategory(cat, s, input) ==>
        r.value.next == GetOtherServiceName &&
        r.value.session.fields == s.fields[CustomNameKey := input][CategoryKey := CustomService]) &&
      (KnownCategory(cat, s, input) ==>
        r.value.session.fields == s.fields[CategoryKey := input] &&
        r.value.next == if input == Others then GetOtherServiceName else GetOptionalFeatures)
  {
    var input := InputText(raw);
    var t := Record(GetSpecificService, s);
    Dispatched(cat, o, GetSpecificService, s, raw);
    DispatchRules(cat, o, GetSpecificService, t, input, Lower(input));
    assert KnownCategory(cat, t, input) == KnownCategory(cat, s, input);
    SpecificServiceTurnRules(cat, t, input);
  }

  lemma SpecificServiceTurnRules(cat: Catalog, s: Session, input: string)
    requires MainServiceKey in s.fields
    ensures var r := SpecificServiceTurn(cat, s, input);
      r.Ok? &&
      (!KnownCategory(cat, s, input) ==>
        r.value.next == GetOtherServiceName &&
        r.value.session.fields == s.fields[CustomNameKey := input][CategoryKey := CustomService]) &&
      (KnownCategory(cat, s, input) ==>
        r.value.session.fields == s.fields[CategoryKey := input] &&
        r.value.next == if input == Others then GetOtherServiceName else GetOptionalFeatures)
  {
    if !KnownCategory(cat, s, input) {
      assert s.fields[CategoryKey := input][CustomNameKey := input][CategoryKey := CustomService]
        == s.fields[CustomNameKey := input][CategoryKey := CustomService];
    }
  }

  /** The custom-service description is stored only when no custom name is
      set yet; an existing one is kept. */
  lemma OtherServiceNameKeepsExisting(cat: Catalog, o: Oracles, s: Session, raw: Option<string>)
    requires Ordinary(GetOtherServiceName, s, InputText(raw))
    ensures var r := HandleChat(cat, o, GetOtherServiceName, s, raw);
      r.Ok? ==>
        r.value.session.fields ==
          if CustomNameKey in s.fields then s.fields else s.fields[CustomNameKey := InputText(raw)]
  {
    var input := InputText(raw);
    var t := Record(GetOtherServiceName, s);
    assert HandleChat(cat, o, GetOtherServiceName, s, raw) == OtherServiceNameTurn(cat, o.estimate, t, input) by {
      Dispatched(cat, o, GetOtherServiceName, s, raw);
      DispatchRules(cat, o, GetOtherServiceName, t, input, Lower(input));
    }
    assert t.fields == s.fields;
    OtherServiceNameFields(cat, o.estimate, t, input);
  }

  /** The fields `OtherServiceNameTurn` leaves behind on success. */
  lemma OtherServiceNameFields(cat: Catalog, estimate: Estimator, t: Session, input: string)
    ensures var r := OtherServiceNameTurn(cat, estimate, t, input);
      r.Ok? ==>
        r.value.session.fields ==
          if CustomNameKey in t.fields then t.fields else t.fields[CustomNameKey := input]
  {
  }

  /** Whether the estimator produced a usable estimate for the description:
      an empty object is falsy in Python and counts as none. */
  predicate HasEstimate(cat: Catalog, estimate: Estimator, s: Session, input: string)
    requires MainServiceKey in s.fields
  {
    var name := if CustomNameKey in s.fields then s.fields[CustomNameKey] else input;
    var ms := s.fields[MainServiceKey];
    var e := estimate(name, ms, AllRowsOf(cat, ms));
    e.Some? && |e.value| > 0
  }

  /** After the description: a non-empty estimate moves on to the optional
      features and hands the estimate to the widget; no estimate, or an empty
      one, goes back to the category choice. A missing main service fails. */
  lemma OtherServiceNameTurnRules(cat: Catalog, estimate: Estimator, s: Session, input: string)
    ensures var r := OtherServiceNameTurn(cat, estimate, s, input);
      (MainServiceKey !in s.fields <==> r == Err(MissingKey(MainServiceKey))) &&
      (MainServiceKey in s.fields ==>
        r.Ok? && !r.value.saveRequested &&
        (r.value.next == GetOptionalFeatures <==> HasEstimate(cat, estimate, s, input)) &&
        (!HasEstimate(cat, estimate, s, input) ==> r.value.next == GetSpecificService && r.value.ui == NoUi) &&
        (HasEstimate(cat, estimate, s, input) ==>
          var name := if CustomNameKey in s.fields then s.fields[CustomNameKey] else input;
          var ms := s.fields[MainServiceKey];
          r.value.ui == StoreData(estimate(name, ms, AllRowsOf(cat, ms)).value)))
  {
  }

  /** The same rule for a whole turn at `get_other_service_name`. */
  lemma OtherServiceNameNext(cat: Catalog, o: Oracles, s: Session, raw: Option<string>)
    requires Ordinary(GetOtherServiceName, s, InputText(raw))
    requires MainServiceKey in s.fields
    ensures var r := HandleChat(cat, o, GetOtherServiceName, s, raw);
      r.Ok? &&
      (r.value.next == GetOptionalFeatures <==> HasEstimate(cat, o.estimate, s, InputText(raw))) &&
      (r.value.next != GetOptionalFeatures ==> r.value.next == GetSpecificService)
  {
    var input := InputText(raw);
    var s' := Record(GetOtherServiceName, s);
    Dispatched(cat, o, GetOtherServiceName, s, raw);
    DispatchRules(cat, o, GetOtherServiceName, s', input, Lower(input));
    OtherServiceNameTurnRules(cat, o.estimate, s', input);
    assert HasEstimate(cat, o.estimate, s', input) == HasEstimate(cat, o.estimate, s, input);
  }

  /** Stages without a rule of their own, and an initial choice that is not
      one of the two buttons word for word, are rejected. */
  lemma UnhandledStagesRejected(cat: Catalog, o: Oracles, stage: Stage, s: Session, raw: Option<string>)
    requires Ordinary(stage, s, InputText(raw))
    requires stage in {Ended, PostEngagement, GetEmailForJob} || stage.Unknown?
      || (stage == InitialChoice && InputText(raw) !in LegacyWelcome)
    ensures HandleChat(cat, o, stage, s, raw) == Err(InvalidStage(Name(stage)))
  {
    var input := InputText(raw);
    Dispatched(cat, o, stage, s, raw);
    DispatchRules(cat, o, stage, Record(stage, s), input, Lower(input));
  }

  /** At the closing stages an ordinary turn either keeps chatting or ends;
      it ends exactly on a farewell that is neither an upload notice nor a
      question about the proposal. */
  lemma ClosingStagesEnd(cat: Catalog, o: Oracles, stage: Stage, s: Session, raw: Option<string>)
    requires stage in {GeneralChat, FinalGeneration, JobApplication}
    requires Ordinary(stage, s, InputText(raw))
    ensures var input := InputText(raw);
      var lower := Lower(input);
      var r := HandleChat(cat, o, stage, s, raw);
      r.Ok? && r.value.session == Record(stage, s) &&
      (r.value.next == Ended <==>
        !(stage == JobApplication && StartsWith(input, "Uploaded:")) && !AsksForProposal(lower) && SaysGoodbye(lower)) &&
      (r.value.next != Ended ==> r.value.next == GeneralChat)
  {
    var input := InputText(raw);
    Dispatched(cat, o, stage, s, raw);
    DispatchRules(cat, o, stage, Record(stage, s), input, Lower(input));
  }

  /** The farewell test is a substring test: "i know" contains "no", so it
      ends a general chat like a goodbye would. */
  lemma KnowEndsChat(cat: Catalog, o: Oracles, s: Session)
    ensures var r := HandleChat(cat, o, GeneralChat, s, Some("i know"));
      r.Ok? && r.value.next == Ended
  {
    KnowReadsAsIs();
    KnowIsFarewell();
    assert Ordinary(GeneralChat, s, "i know");
    ClosingStagesEnd(cat, o, GeneralChat, s, Some("i know"));
  }

  /** "i know" reaches the rules unchanged by stripping and lower-casing. */
  lemma KnowReadsAsIs()
    ensures InputText(Some("i know")) == "i know"
    ensures Lower("i know") == "i know"
  {
    var input := "i know";
    assert !IsSpace(input[0]) && !IsSpace(input[5]);
    assert forall i :: 0 <= i < |input| ==> LowerChar(input[i]) == input[i];
  }

  /** "i know" contains "no" and none of the longer phrases tested first. */
  lemma KnowIsFarewell()
    ensures SaysGoodbye("i know")
    ensures !AsksForProposal("i know") && !AsksForPerson(GeneralChat, "i know")
    ensures !IsSubstring(NewProposal, "i know") && "i know" != BackCommand
  {
    var input := "i know";
    assert input[3..5] == "no";
    SubstringAt("no", input, 3);
    LongerIsNoSubstring("connect", input);
    LongerIsNoSubstring("talk to", input);
    LongerIsNoSubstring(NewProposal, input);
    LongerIsNoSubstring("where is my", input);
    LongerIsNoSubstring("get the proposal", input);
    LongerIsNoSubstring("send it", input);
  }
}
