/** The conversation stages. The client sends the stage name as free text,
    so besides the named stages there is `Unknown`, which keeps whatever
    other name arrived. */
module Stages {

  datatype Stage =
    | GetName
    | InitialChoice
    | GetEmail
    | GetEmailForJob
    | GetPhone
    | GetCompany
    | GetCompanySize
    | GetBudget
    | GetMainService
    | GetSubCategory
    | GetSpecificService
    | GetOtherServiceName
    | GetOptionalFeatures
    | ConfirmProposal
    | FinalGeneration
    | PostEngagement
    | JobApplication
    | GeneralChat
    | Ended
    | Unknown(name: string)

  /** The wire name of a named stage. */
  function KnownName(s: Stage): (n: string)
    requires !s.Unknown?
  {
    match s
    case GetName => "get_name"
    case InitialChoice => "initial_choice"
    case GetEmail => "get_email"
    case GetEmailForJob => "get_email_for_job"
    case GetPhone => "get_phone"
    case GetCompany => "get_company"
    case GetCompanySize => "get_company_size"
    case GetBudget => "get_budget"
    case GetMainService => "get_main_service"
    case GetSubCategory => "get_sub_category"
    case GetSpecificService => "get_specific_service"
    case GetOtherServiceName => "get_other_service_name"
    case GetOptionalFeatures => "get_optional_features"
    case ConfirmProposal => "confirm_proposal"
    case FinalGeneration => "final_generation"
    case PostEngagement => "post_engagement"
    case JobApplication => "job_application"
    case GeneralChat => "general_chat"
    case Ended => "ended"
  }

  predicate IsStageName(n: string) {
    n in {"get_name", "initial_choice", "get_email", "get_email_for_job", "get_phone",
      "get_company", "get_company_size", "get_budget", "get_main_service",
      "get_sub_category", "get_specific_service", "get_other_service_name",
      "get_optional_features", "confirm_proposal", "final_generation",
      "post_engagement", "job_application", "general_chat", "ended"}
  }

  /** An `Unknown` stage only ever carries a name no named stage has. */
  predicate Canonical(s: Stage) {
    s.Unknown? ==> !IsStageName(s.name)
  }

  /** The name sent over the wire. */
  function Name(s: Stage): (n: string)
    ensures !s.Unknown? ==> IsStageName(n)
    ensures s.Unknown? ==> n == s.name
  {
    if s.Unknown? then s.name else KnownName(s)
  }

  /** Reading a stage name sent by the client. */
  function Parse(n: string): (s: Stage)
    ensures Canonical(s)
    ensures s.Unknown? <==> !IsStageName(n)
  {
    if n == "get_name" then GetName
    else if n == "initial_choice" then InitialChoice
    else if n == "get_email" then GetEmail
    else if n == "get_email_for_job" then GetEmailForJob
    else if n == "get_phone" then GetPhone
    else if n == "get_company" then GetCompany
    else if n == "get_company_size" then GetCompanySize
    else if n == "get_budget" then GetBudget
    else if n == "get_main_service" then GetMainService
    else if n == "get_sub_category" then GetSubCategory
    else if n == "get_specific_service" then GetSpecificService
    else if n == "get_other_service_name" then GetOtherServiceName
    else if n == "get_optional_features" then GetOptionalFeatures
    else if n == "confirm_proposal" then ConfirmProposal
    else if n == "final_generation" then FinalGeneration
    else if n == "post_engagement" then PostEngagement
    else if n == "job_application" then JobApplication
    else if n == "general_chat" then GeneralChat
    else if n == "ended" then Ended
    else Unknown(n)
  }

  /** Any name survives a round trip through the datatype. */
  lemma NameOfParse(n: string)
    ensures Name(Parse(n)) == n
  {
  }

  /** Any canonical stage survives a round trip through its name. */
  lemma ParseOfName(s: Stage)
    requires Canonical(s)
    ensures Parse(Name(s)) == s
  {
    match s
    case Unknown(n) =>
    case _ => KnownRoundTrip(s);
  }

  lemma KnownRoundTrip(s: Stage)
    requires !s.Unknown?
    ensures Parse(KnownName(s)) == s
  {
    if s == GetName || s == InitialChoice || s == GetEmail || s == GetEmailForJob || s == GetPhone || s == GetCompany || s == GetCompanySize {
      ContactRoundTrip(s);
    } else if s == GetBudget || s == GetMainService || s == GetSubCategory || s == GetSpecificService || s == GetOtherServiceName || s == GetOptionalFeatures {
      ServiceRoundTrip(s);
    } else if s == ConfirmProposal || s == FinalGeneration || s == PostEngagement {
      ClosingRoundTrip(s);
    } else if s == JobApplication {
      JobApplicationRoundTrip();
    } else if s == GeneralChat {
      GeneralChatRoundTrip();
    } else {
      EndedRoundTrip();
    }
  }

  lemma ContactRoundTrip(s: Stage)
    requires s == GetName || s == InitialChoice || s == GetEmail || s == GetEmailForJob || s == GetPhone || s == GetCompany || s == GetCompanySize
    ensures Parse(KnownName(s)) == s
  {
    match s
    case GetName =>
    case InitialChoice =>
    case GetEmail =>
    case GetEmailForJob =>
    case GetPhone =>
    case GetCompany =>
    case GetCompanySize =>
  }

  lemma ServiceRoundTrip(s: Stage)
    requires s == GetBudget || s == GetMainService || s == GetSubCategory || s == GetSpecificService || s == GetOtherServiceName || s == GetOptionalFeatures
    ensures Parse(KnownName(s)) == s
  {
    match s
    case GetBudget =>
    case GetMainService =>
    case GetSubCategory =>
    case GetSpecificService =>
    case GetOtherServiceName =>
    case GetOptionalFeatures =>
  }

  lemma ClosingRoundTrip(s: Stage)
    requires s == ConfirmProposal || s == FinalGeneration || s == PostEngagement
    ensures Parse(KnownName(s)) == s
  {
    match s
    case ConfirmProposal =>
    case FinalGeneration =>
    case PostEngagement =>
  }

  lemma JobApplicationRoundTrip()
    ensures Parse(KnownName(JobApplication)) == JobApplication
  {
  }

  lemma GeneralChatRoundTrip()
    ensures Parse(KnownName(GeneralChat)) == GeneralChat
  {
  }

  lemma EndedRoundTrip()
    ensures Parse(KnownName(Ended)) == Ended
  {
  }

  /** Distinct canonical stages have distinct names. */
  lemma NameInjective(s: Stage, t: Stage)
    requires Canonical(s) && Canonical(t)
    requires Name(s) == Name(t)
    ensures s == t
  {
    ParseOfName(s);
    ParseOfName(t);
  }
}
