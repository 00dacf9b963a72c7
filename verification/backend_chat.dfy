/** The chat turn of the deployed service (backend/main.py): interrupts
    first, then the back sentinel, then history tracking, then one rule per
    stage. Every turn is a pure function of the stage, the session and the
    text the user typed; the address validator is a parameter. */
module BackendChat {
  import opened Wrappers
  import opened Text
  import opened Assoc
  import opened Catalog
  import opened Countries
  import opened Budget
  import opened Stages
  import opened Sessions

  const BackCommand := "__GO_BACK__"
  const ResetPhrases := {"new proposal", "restart", "reset", "start over"}
  const HelpPhrases := {"help", "support", "agent"}
  const SizeOptions := ["1-10", "11-50", "51-200", "200+"]
  const OtherRequirement := "Other Requirement"
  const ConfirmOptions := ["Yes, Generate Proposal", "No, Cancel"]
  const MenuOptions := ["Create Another Proposal", "Main Menu"]

  /** Stages that never enter the history. */
  const Unrecorded := {Ended, GeneralChat, FinalGeneration, GetName, ConfirmProposal, PostEngagement}

  /** The history is well formed when no unrecorded stage is in it and no
      two neighbouring entries are equal. */
  predicate WellFormedHistory(h: seq<Stage>) {
    (forall i :: 0 <= i < |h| ==> h[i] !in Unrecorded)
    && (forall i :: 0 < i < |h| ==> h[i - 1] != h[i])
  }

  /** History tracking: the current stage is pushed unless it is unrecorded
      or already on top. */
  function Push(stage: Stage, s: Session): (r: Session)
    ensures r.fields == s.fields
    ensures stage in Unrecorded ==> r.history == s.history
    ensures stage !in Unrecorded ==> r.history == (if |s.history| > 0 && s.history[|s.history| - 1] == stage then s.history else s.history + [stage])
  {
    if stage in Unrecorded || (|s.history| > 0 && s.history[|s.history| - 1] == stage) then s
    else s.(history := s.history + [stage])
  }

  /** Pushing keeps the history well formed. */
  lemma PushKeepsHistory(stage: Stage, s: Session)
    requires WellFormedHistory(s.history)
    ensures WellFormedHistory(Push(stage, s).history)
  {
  }

  // ---------------------------------------------------------------------
  // Going back

  /** `go_back_to_stage`: re-enter `target` with its prompt; only returning
      to the name question forgets a field, the name itself. */
  function GoBackTo(target: Stage, s: Session): (r: Reply)
    ensures r.next == target && r.session.history == s.history && !r.saveRequested
    ensures target == GetName ==> r.session == RemoveField(s, NameKey)
    ensures target != GetName ==> r.session == s
  {
    match target
    case GetName => Reply(GetName, RemoveField(s, NameKey), NoUi, false)
    case InitialChoice => Reply(InitialChoice, s, Buttons(Some(Pills), WelcomeOptions), false)
    case GetEmail => Reply(GetEmail, s, NoUi, false)
    case GetPhone => Reply(GetPhone, s, PhoneForm(DeployedNames), false)
    case GetCompany => Reply(GetCompany, s, NoUi, false)
    case _ => Reply(target, s, NoUi, false)
  }

  /** The back sentinel: with an empty history the stage stays where it is;
      otherwise the top entry is popped and re-entered. */
  function Back(stage: Stage, s: Session): (r: Reply)
    ensures |s.history| == 0 ==> r == Reply(stage, s, NoUi, false)
    ensures |s.history| > 0 ==>
      r.next == s.history[|s.history| - 1] && r.session.history == s.history[..|s.history| - 1]
  {
    if |s.history| == 0 then Reply(stage, s, NoUi, false)
    else GoBackTo(s.history[|s.history| - 1], s.(history := s.history[..|s.history| - 1]))
  }

  // ---------------------------------------------------------------------
  // Phone entry

  /** The number with spaces and dashes removed. */
  function CleanNumber(p: string): (r: string)
    ensures ' ' !in r && '-' !in r
  {
    RemoveChar(RemoveChar(p, ' '), '-')
  }

  /** The widget sends "country:number". The entry is accepted when there is
      a colon and the text after the first colon is at least seven digits
      once spaces and dashes are dropped; the country is not looked up. */
  function PhoneEntry(input: string): (r: Option<(string, string)>)
    ensures r.Some? ==> input == r.value.0 + ":" + r.value.1 && ':' !in r.value.0
    ensures r.Some? ==> |CleanNumber(r.value.1)| >= 7 && IsDigits(CleanNumber(r.value.1))
    ensures r.None? ==>
      ':' !in input || (var (_, p) := SplitFirst(input, ':').value; |CleanNumber(p)| < 7 || !IsDigits(CleanNumber(p)))
  {
    match SplitFirst(input, ':')
    case None => None
    case Some((c, p)) =>
      var clean := CleanNumber(p);
      if |clean| < 7 || !IsDigits(clean) then None else Some((c, p))
  }

  // ---------------------------------------------------------------------
  // One rule per stage

  function NameTurn(s: Session, input: string): Reply {
    if |input| < 2 then Reply(GetName, s, NoUi, false)
    else Reply(InitialChoice, SetField(s, NameKey, input), Buttons(Some(Pills), WelcomeOptions), false)
  }

  function InitialChoiceTurn(s: Session, input: string): Reply {
    if IsSubstring("Service", input) then Reply(GetEmail, s, NoUi, false)
    else if IsSubstring("Career", input) then Reply(GetEmailForJob, s, NoUi, false)
    else Reply(InitialChoice, s, Buttons(Some(Pills), WelcomeOptions), false)
  }

  function EmailTurn(validate: EmailValidator, s: Session, input: string): Reply {
    match validate(input)
    case Some(address) => Reply(GetPhone, SetField(s, EmailKey, address), PhoneForm(DeployedNames), false)
    case None => Reply(GetEmail, s, NoUi, false)
  }

  function JobEmailTurn(validate: EmailValidator, s: Session, input: string): Reply {
    match validate(input)
    case Some(address) =>
      Reply(JobApplication, SetField(s, EmailKey, address), FileUpload(Some(("/upload-resume", address))), false)
    case None => Reply(GetEmailForJob, s, NoUi, false)
  }

  function PhoneTurn(s: Session, input: string): Reply {
    match PhoneEntry(input)
    case Some((country, phone)) =>
      Reply(GetCompany, SetField(SetField(s, PhoneKey, phone), CountryKey, country), NoUi, true)
    case None => Reply(GetPhone, s, PhoneForm(DeployedNames), false)
  }

  function CompanyTurn(s: Session, input: string): Reply {
    if |input| < 2 then Reply(GetCompany, s, NoUi, false)
    else Reply(GetCompanySize, SetField(s, CompanyKey, input), Dropdown(SizeOptions), false)
  }

  /** The budget buttons use the stored country, or India's rates when the
      country is not in the table; a session without a country fails. */
  function CompanySizeTurn(s: Session, input: string): Turn {
    if CountryKey !in s.fields then Err(MissingKey(CountryKey))
    else
      DeployedTableWellFormed();
      var ci := CountryOrIndia(DeployedCountries, s.fields[CountryKey]);
      Ok(Reply(GetBudget, SetField(s, CompanySizeKey, input), Buttons(Some(Pills), LocalBudgetOptions(ci)), false))
  }

  function BudgetTurn(cat: Catalog, s: Session, input: string): Reply {
    Reply(GetMainService, SetField(s, BudgetKey, input), Buttons(Some(Cards), cat.mainServices), false)
  }

  function MainServiceTurn(cat: Catalog, s: Session, input: string): Reply {
    var t := SetField(s, MainServiceKey, input);
    if input == AppDevelopment then
      Reply(GetSubCategory, t, Buttons(Some(Cards), Keys(cat.appSubCategories)), false)
    else if input in Keys(cat.otherSubCategories) then
      Reply(GetSubCategory, t, Buttons(Some(Cards), GetOr(cat.otherSubCategories, input, [])), false)
    else if input in Keys(cat.services) then
      Reply(GetSpecificService, t, Buttons(Some(Cards), Keys(CategoriesOf(cat, input, DefaultSub)) + [OtherRequirement]), false)
    else
      Reply(GetMainService, t, Buttons(Some(Cards), cat.mainServices), false)
  }

  function SubCategoryTurn(cat: Catalog, s: Session, input: string): Turn {
    var t := SetField(s, SubCategoryKey, input);
    if MainServiceKey !in s.fields then Err(MissingKey(MainServiceKey))
    else
      var ms := s.fields[MainServiceKey];
      var options :=
        if ms == AppDevelopment then GetOr(cat.appSubCategories, input, []) + [OtherRequirement]
        else Keys(CategoriesOf(cat, ms, input)) + [OtherRequirement];
      Ok(Reply(GetSpecificService, t, Buttons(Some(Pills), options), false))
  }

  function SpecificServiceTurn(s: Session, input: string): Reply {
    if IsSubstring("Other", input) then Reply(GetOtherServiceName, SetField(s, CategoryKey, "Others"), NoUi, false)
    else Reply(GetOptionalFeatures, RemoveField(SetField(s, CategoryKey, input), CustomNameKey), NoUi, false)
  }

  function OtherServiceNameTurn(s: Session, input: string): Reply {
    Reply(GetOptionalFeatures, SetField(s, CustomNameKey, input), NoUi, false)
  }

  /** The summary quotes the stored address, so a session without one fails. */
  function OptionalFeaturesTurn(s: Session, input: string): Turn {
    if EmailKey !in s.fields then Err(MissingKey(EmailKey))
    else Ok(Reply(ConfirmProposal, SetField(s, DescriptionKey, input), Buttons(Some(Pills), ConfirmOptions), false))
  }

  function ConfirmTurn(s: Session, input: string): Reply {
    if IsSubstring("Yes", input) then Reply(FinalGeneration, s, NoUi, false)
    else if IsSubstring("No", input) then
      Reply(PostEngagement, s, Buttons(None, ["Create New Proposal", "Contact Support"]), false)
    else Reply(ConfirmProposal, s, Buttons(None, ConfirmOptions), false)
  }

  function PostEngagementTurn(s: Session, input: string): Reply {
    if IsSubstring("Create", input) then
      Reply(InitialChoice, s.(history := []), Buttons(Some(Pills), WelcomeOptions), false)
    else if IsSubstring("Visit", input) then
      Reply(PostEngagement, s, Buttons(None, ["Create Another Proposal", "Contact Sales"]), false)
    else if IsSubstring("Sales", input) || IsSubstring("Support", input) then
      Reply(PostEngagement, s, Buttons(None, MenuOptions), false)
    else if IsSubstring("Main Menu", input) then
      Reply(InitialChoice, s, Buttons(Some(Pills), WelcomeOptions), false)
    else Reply(PostEngagement, s, Buttons(None, MenuOptions), false)
  }

  /** The general-chat answer: its text comes from the language model and is
      not modelled, the stage becomes `general_chat`. */
  function Fallback(s: Session): Reply {
    Reply(GeneralChat, s, NoUi, false)
  }

  /** The stage rules, applied to the session after history tracking. A rule
      keeps the history, except that starting over from the closing menu
      empties it, and fails only on the key its stage looks up directly.
      When it fails is `DispatchFails`; which fields it writes is
      `DispatchTouchesOwnFields`. */
  function Dispatch(cat: Catalog, validate: EmailValidator, stage: Stage, s: Session, input: string): (r: Turn)
    ensures r.Ok? ==> r.value.session.history == s.history || (stage == PostEngagement && r.value.session.history == [])
    ensures r.Err? ==> r.error == MissingKey(LookedUp(stage))
  {
    match stage
    case GetName => Ok(NameTurn(s, input))
    case InitialChoice => Ok(InitialChoiceTurn(s, input))
    case GetEmail => Ok(EmailTurn(validate, s, input))
    case GetEmailForJob => Ok(JobEmailTurn(validate, s, input))
    case GetPhone => Ok(PhoneTurn(s, input))
    case GetCompany => Ok(CompanyTurn(s, input))
    case GetCompanySize => CompanySizeTurn(s, input)
    case GetBudget => Ok(BudgetTurn(cat, s, input))
    case GetMainService => Ok(MainServiceTurn(cat, s, input))
    case GetSubCategory => SubCategoryTurn(cat, s, input)
    case GetSpecificService => Ok(SpecificServiceTurn(s, input))
    case GetOtherServiceName => Ok(OtherServiceNameTurn(s, input))
    case GetOptionalFeatures => OptionalFeaturesTurn(s, input)
    case ConfirmProposal => Ok(ConfirmTurn(s, input))
    case FinalGeneration =>
      Ok(Reply(PostEngagement, s, Buttons(None, ["Create Another Proposal", "Visit Website", "Contact Sales"]), false))
    case PostEngagement => Ok(PostEngagementTurn(s, input))
    case JobApplication =>
      if IsSubstring("Uploaded", input) then Ok(Reply(PostEngagement, s, Buttons(None, ["Main Menu", "Visit Website"]), false))
      else Ok(Fallback(s))
    case GeneralChat => Ok(Fallback(s))
    case Ended => Ok(Fallback(s))
    case Unknown(_) => Ok(Fallback(s))
  }

  /** Whether the typed text is one of the interrupts handled before
      anything else. */
  predicate IsInterrupt(input: string) {
    Lower(input) in ResetPhrases || Lower(input) in HelpPhrases || input == BackCommand
  }

  /** `handle_chat`. The interrupts always answer; an ordinary turn fails
      only on a missing session key its stage looks up directly, and writes
      only the fields its stage owns. */
  function HandleChat(cat: Catalog, validate: EmailValidator, stage: Stage, s: Session, raw: Option<string>): (r: Turn)
    ensures r.Err? <==>
      !IsInterrupt(InputText(raw)) &&
      ((stage == GetCompanySize && CountryKey !in s.fields)
      || (stage == GetSubCategory && MainServiceKey !in s.fields)
      || (stage == GetOptionalFeatures && EmailKey !in s.fields))
    ensures r.Err? ==> r.error == MissingKey(LookedUp(stage))
    ensures r.Ok? && !IsInterrupt(InputText(raw)) ==> SameExcept(r.value.session, s, Owned(stage))
  {
    var input := InputText(raw);
    if IsInterrupt(input) then Ok(Interrupt(stage, s, input))
    else
      DispatchFails(cat, validate, stage, Push(stage, s), input);
      DispatchTouchesOwnFields(cat, validate, stage, Push(stage, s), input);
      Dispatch(cat, validate, stage, Push(stage, s), input)
  }

  /** The interrupts, in the order they are tested: the reset phrases, the
      help phrases, the back sentinel. */
  function Interrupt(stage: Stage, s: Session, input: string): Reply
    requires IsInterrupt(input)
  {
    var lower := Lower(input);
    if lower in ResetPhrases then Reply(GetName, Fresh, NoUi, false)
    else if lower in HelpPhrases then Reply(stage, s, NoUi, false)
    else Back(stage, s)
  }

  // ---------------------------------------------------------------------
  // Properties

  /** "new proposal", "restart", "reset" and "start over", in any case and
      with surrounding spaces, wipe the session and ask for the name, from
      every stage. */
  lemma ResetFromAnyStage(cat: Catalog, validate: EmailValidator, stage: Stage, s: Session, raw: Option<string>)
    requires Lower(InputText(raw)) in ResetPhrases
    ensures HandleChat(cat, validate, stage, s, raw) == Ok(Reply(GetName, Fresh, NoUi, false))
  {
  }

  /** "help", "support" and "agent" answer in place: same stage, same
      session, nothing pushed. */
  lemma HelpStaysPut(cat: Catalog, validate: EmailValidator, stage: Stage, s: Session, raw: Option<string>)
    requires Lower(InputText(raw)) in HelpPhrases
    ensures HandleChat(cat, validate, stage, s, raw) == Ok(Reply(stage, s, NoUi, false))
  {
    InterruptWordsDisjoint();
  }

  /** No help phrase is also a reset phrase. */
  lemma InterruptWordsDisjoint()
    ensures ResetPhrases !! HelpPhrases
  {
    assert "support"[0] != "restart"[0];
    assert "agent"[0] != "reset"[0];
  }

  /** The back sentinel is not caught by the word interrupts. */
  lemma BackIsNotAWord()
    ensures Lower(BackCommand) !in ResetPhrases && Lower(BackCommand) !in HelpPhrases
  {
    var w := Lower(BackCommand);
    assert |w| == |BackCommand|;
    ElevenLettersIsNoPhrase(w);
  }

  /** The interrupt phrases are all shorter or longer than eleven
      characters. */
  lemma ElevenLettersIsNoPhrase(w: string)
    requires |w| == 11
    ensures w !in ResetPhrases && w !in HelpPhrases
  {
  }

  /** Back with an empty history changes nothing; otherwise exactly one entry
      is popped and becomes the stage, and the only field that can go is the
      name, when the popped entry is the name question. */
  lemma BackPopsOne(cat: Catalog, validate: EmailValidator, stage: Stage, s: Session, raw: Option<string>)
    requires InputText(raw) == BackCommand
    ensures var r := HandleChat(cat, validate, stage, s, raw);
      r.Ok? && !r.value.saveRequested &&
      (|s.history| == 0 ==> r.value.next == stage && r.value.session == s) &&
      (|s.history| > 0 ==>
        r.value.next == s.history[|s.history| - 1] &&
        r.value.session.history == s.history[..|s.history| - 1] &&
        r.value.session.fields == (if r.value.next == GetName then s.fields - {NameKey} else s.fields))
  {
    BackIsNotAWord();
  }

  /** Every successful turn keeps the history well formed: unrecorded stages
      never enter it and no entry repeats its neighbour. */
  lemma HistoryStaysWellFormed(cat: Catalog, validate: EmailValidator, stage: Stage, s: Session, raw: Option<string>)
    requires WellFormedHistory(s.history)
    ensures var r := HandleChat(cat, validate, stage, s, raw);
      r.Ok? ==> WellFormedHistory(r.value.session.history)
  {
    var input := InputText(raw);
    if IsInterrupt(input) {
      assert HandleChat(cat, validate, stage, s, raw) == Ok(Interrupt(stage, s, input));
      InterruptKeepsHistory(stage, s, input);
    } else {
      assert HandleChat(cat, validate, stage, s, raw) == Dispatch(cat, validate, stage, Push(stage, s), input);
      PushKeepsHistory(stage, s);
    }
  }

  /** An interrupt empties the history, keeps it, or pops its top entry. */
  lemma InterruptKeepsHistory(stage: Stage, s: Session, input: string)
    requires IsInterrupt(input) && WellFormedHistory(s.history)
    ensures WellFormedHistory(Interrupt(stage, s, input).session.history)
  {
    InterruptHistory(stage, s, input);
    if |s.history| > 0 {
      PrefixKeepsHistory(s.history, |s.history| - 1);
    }
  }

  lemma InterruptHistory(stage: Stage, s: Session, input: string)
    requires IsInterrupt(input)
    ensures var h := Interrupt(stage, s, input).session.history;
      h == [] || h == s.history || (|s.history| > 0 && h == s.history[..|s.history| - 1])
  {
    var lower := Lower(input);
    if lower !in ResetPhrases && lower !in HelpPhrases {
      assert Interrupt(stage, s, input) == Back(stage, s);
    }
  }

  /** Any prefix of a well-formed history is well formed. */
  lemma PrefixKeepsHistory(h: seq<Stage>, n: nat)
    requires WellFormedHistory(h) && n <= |h|
    ensures WellFormedHistory(h[..n])
  {
    assert forall i :: 0 <= i < n ==> h[..n][i] == h[i];
  }

  /** The phone stage accepts exactly the entries `PhoneEntry` accepts: it
      stores the raw text after the first colon as the phone and the text
      before it as the country, requests the lead save and moves to the company
      question; anything else asks again and changes no field. */
  lemma PhoneAcceptance(cat: Catalog, validate: EmailValidator, s: Session, raw: Option<string>)
    requires !IsInterrupt(InputText(raw))
    ensures var r := HandleChat(cat, validate, GetPhone, s, raw);
      var input := InputText(raw);
      r.Ok? &&
      (r.value.next == GetCompany <==> PhoneEntry(input).Some?) &&
      (r.value.saveRequested <==> PhoneEntry(input).Some?) &&
      (PhoneEntry(input).Some? ==>
        r.value.session.fields == s.fields[PhoneKey := PhoneEntry(input).value.1][CountryKey := PhoneEntry(input).value.0]) &&
      (PhoneEntry(input).None? ==> r.value.next == GetPhone && r.value.session.fields == s.fields)
  {
    var input := InputText(raw);
    assert HandleChat(cat, validate, GetPhone, s, raw) == Ok(PhoneTurn(Push(GetPhone, s), input));
  }

  /** A name or company shorter than two characters asks again without
      storing anything; otherwise exactly that field is set and the
      conversation moves on. */
  lemma ShortAnswersAskAgain(cat: Catalog, validate: EmailValidator, stage: Stage, s: Session, raw: Option<string>)
    requires stage == GetName || stage == GetCompany
    requires !IsInterrupt(InputText(raw))
    ensures var r := HandleChat(cat, validate, stage, s, raw);
      var input := InputText(raw);
      var key := if stage == GetName then NameKey else CompanyKey;
      r.Ok? &&
      (|input| < 2 ==> r.value.next == stage && r.value.session.fields == s.fields) &&
      (|input| >= 2 ==> r.value.next != stage && r.value.session.fields == s.fields[key := input])
  {
    var input := InputText(raw);
    if stage == GetName {
      assert HandleChat(cat, validate, stage, s, raw) == Ok(NameTurn(Push(stage, s), input));
    } else {
      assert HandleChat(cat, validate, stage, s, raw) == Ok(CompanyTurn(Push(stage, s), input));
    }
  }

  /** Stages without a rule of their own (general chat, ended, or a name the
      service does not know) hand the input to the general answer. */
  lemma UnknownStagesChat(cat: Catalog, validate: EmailValidator, stage: Stage, s: Session, raw: Option<string>)
    requires stage.Unknown? || stage == GeneralChat || stage == Ended
    requires !IsInterrupt(InputText(raw))
    ensures HandleChat(cat, validate, stage, s, raw) == Ok(Reply(GeneralChat, Push(stage, s), NoUi, false))
  {
    assert Dispatch(cat, validate, stage, Push(stage, s), InputText(raw)) == Ok(Fallback(Push(stage, s)));
  }

  /** The fields a stage's own rule may write. */
  function Owned(stage: Stage): set<string> {
    match stage
    case GetName => {NameKey}
    case GetEmail => {EmailKey}
    case GetEmailForJob => {EmailKey}
    case GetPhone => {PhoneKey, CountryKey}
    case GetCompany => {CompanyKey}
    case GetCompanySize => {CompanySizeKey}
    case GetBudget => {BudgetKey}
    case GetMainService => {MainServiceKey}
    case GetSubCategory => {SubCategoryKey}
    case GetSpecificService => {CategoryKey, CustomNameKey}
    case GetOtherServiceName => {CustomNameKey}
    case GetOptionalFeatures => {DescriptionKey}
    case _ => {}
  }

  lemma DispatchTouchesOwnFields(cat: Catalog, validate: EmailValidator, stage: Stage, s: Session, input: string)
    ensures var r := Dispatch(cat, validate, stage, s, input);
      r.Ok? ==> SameExcept(r.value.session, s, Owned(stage))
  {
    var owned := Owned(stage);
    match stage {
      case GetName => SetFieldKeeps(s, NameKey, input, owned);
      case GetEmail | GetEmailForJob =>
        if validate(input).Some? { SetFieldKeeps(s, EmailKey, validate(input).value, owned); }
      case GetPhone =>
        if PhoneEntry(input).Some? {
          var (country, phone) := PhoneEntry(input).value;
          SetFieldKeeps(s, PhoneKey, phone, owned);
          SetFieldKeeps(SetField(s, PhoneKey, phone), CountryKey, country, owned);
        }
      case GetCompany => SetFieldKeeps(s, CompanyKey, input, owned);
      case GetCompanySize => SetFieldKeeps(s, CompanySizeKey, input, owned);
      case GetBudget => SetFieldKeeps(s, BudgetKey, input, owned);
      case GetMainService => SetFieldKeeps(s, MainServiceKey, input, owned);
      case GetSubCategory => SetFieldKeeps(s, SubCategoryKey, input, owned);
      case GetSpecificService =>
        SetFieldKeeps(s, CategoryKey, "Others", owned);
        SetFieldKeeps(s, CategoryKey, input, owned);
      case GetOtherServiceName => SetFieldKeeps(s, CustomNameKey, input, owned);
      case GetOptionalFeatures => SetFieldKeeps(s, DescriptionKey, input, owned);
      case _ =>
    }
  }

  /** Setting an owned key leaves every other key as it was. */
  lemma SetFieldKeeps(s: Session, k: string, v: string, owned: set<string>)
    requires k in owned
    ensures SameExcept(SetField(s, k, v), s, owned)
  {
  }

  /** The key a stage's rule reads directly, where a missing key fails the
      turn. */
  function LookedUp(stage: Stage): string {
    if stage == GetCompanySize then CountryKey
    else if stage == GetSubCategory then MainServiceKey
    else EmailKey
  }

  /** The stage rules fail exactly on the three direct lookups. */
  lemma DispatchFails(cat: Catalog, validate: EmailValidator, stage: Stage, s: Session, input: string)
    ensures Dispatch(cat, validate, stage, s, input).Err? <==>
      (stage == GetCompanySize && CountryKey !in s.fields)
      || (stage == GetSubCategory && MainServiceKey !in s.fields)
      || (stage == GetOptionalFeatures && EmailKey !in s.fields)
  {
    match stage {
      case GetCompanySize =>
      case GetSubCategory =>
      case GetOptionalFeatures =>
      case _ =>
    }
  }
}
