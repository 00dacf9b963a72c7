/** The deployed service's proposal task (backend/main.py): choose the data
    source, record the lead, price the proposal, write and mail the client
    document, write and mail the sales summary. Any error stops the task and
    is swallowed; a category the catalog lacks gets a placeholder entry. */
module BackendTask {
  import opened Wrappers
  import opened Text
  import opened Assoc
  import opened Catalog
  import opened Countries
  import opened Pricing
  import opened Sessions
  import opened Documents
  import opened Effects

  const SalesTeamEmail := "partha@infinitetechai.com"
  const ProposalsDir := "proposals"

  /** The entry used when the catalog has no row for the chosen category. */
  const Placeholder: Row := map["cost" := NumCell(0.0), "description" := TextCell("Custom Requirement")]

  /** `sanitize_filename`: letters and digits stay, every other character
      becomes an underscore. */
  function SanitizeFilename(name: string): (r: string)
    ensures |r| == |name|
    ensures forall i :: 0 <= i < |name| ==> r[i] == (if IsAsciiAlnum(name[i]) then name[i] else '_')
  {
    if |name| == 0 then []
    else [if IsAsciiAlnum(name[0]) then name[0] else '_'] + SanitizeFilename(name[1..])
  }

  /** A sanitised name holds only letters, digits and underscores, and
      sanitising it again changes nothing. */
  lemma {:induction false} SanitizeIdempotent(name: string)
    ensures forall c :: c in SanitizeFilename(name) ==> IsAsciiAlnum(c) || c == '_'
    ensures SanitizeFilename(SanitizeFilename(name)) == SanitizeFilename(name)
  {
    var once := SanitizeFilename(name);
    assert forall i :: 0 <= i < |once| ==> IsAsciiAlnum(once[i]) || once[i] == '_';
    assert !IsAsciiAlnum('_');
  }

  /** Step 1, the data source: the custom estimate (renaming the category
      after the custom name), or the catalog row of the session's main
      service, sub-category (default `_default`) and the requested category,
      falling back to the placeholder. The lookup adds empty levels to the
      catalog as it goes. */
  function ResolveSource(cat: Catalog, d: Session, category: string, customName: Option<string>, customData: Option<Row>)
    : (r: Result<(Row, Session, Catalog), TaskError>)
    ensures UsesCustom(customName, customData) ==>
      r == Ok((customData.value, SetField(d, CategoryKey, customName.value), cat))
    ensures !UsesCustom(customName, customData) && MainServiceKey !in d.fields ==>
      r == Err(MissingField(MainServiceKey))
    ensures !UsesCustom(customName, customData) && MainServiceKey in d.fields ==>
      r.Ok? && r.value.1 == d &&
      r.value.0 == Get3(cat.services, d.fields[MainServiceKey], Field(d, SubCategoryKey).GetOr(DefaultSub), category).GetOr(Placeholder) &&
      d.fields[MainServiceKey] in Keys(r.value.2.services) &&
      (forall x, y, z :: Get3(r.value.2.services, x, y, z) == Get3(cat.services, x, y, z))
  {
    if UsesCustom(customName, customData) then Ok((customData.value, SetField(d, CategoryKey, customName.value), cat))
    else if MainServiceKey !in d.fields then Err(MissingField(MainServiceKey))
    else
      var (found, grown) := Lookup(cat, d.fields[MainServiceKey], Field(d, SubCategoryKey).GetOr(DefaultSub), category);
      Ok((found.GetOr(Placeholder), d, grown))
  }

  /** The introduction of the client document: the generated text's entry,
      or "Proposal for <category>" when nothing was generated. Only generated
      text without an introduction leaves the document without one. */
  function Introduction(narrate: Narrator, source: Row, d: Session): (r: Option<string>)
    ensures var text := narrate(source, Field(d, CategoryKey));
      r.None? <==> text.Some? && |text.value| > 0 && "introduction" !in text.value
    ensures var text := narrate(source, Field(d, CategoryKey));
      r.Some? && r.value != "Proposal for " + Field(d, CategoryKey).GetOr("None") ==>
        text.Some? && "introduction" in text.value && r.value == text.value["introduction"]
    ensures var text := narrate(source, Field(d, CategoryKey));
      text.Some? && |text.value| > 0 && "introduction" in text.value ==> r == Some(text.value["introduction"])
    ensures var text := narrate(source, Field(d, CategoryKey));
      text.None? || |text.value| == 0 ==> r == Some("Proposal for " + Field(d, CategoryKey).GetOr("None"))
  {
    match narrate(source, Field(d, CategoryKey))
    case Some(text) =>
      if |text| > 0 then (if "introduction" in text then Some(text["introduction"]) else None)
      else Some("Proposal for " + Field(d, CategoryKey).GetOr("None"))
    case None => Some("Proposal for " + Field(d, CategoryKey).GetOr("None"))
  }

  /** The project's name in file names and the client subject: the custom
      name when set, else the category. */
  function ProjectName(d: Session): string
    requires CategoryKey in d.fields
  {
    Field(d, CustomNameKey).GetOr(d.fields[CategoryKey])
  }

  /** Steps 4 to 6, once the lead is recorded and the prices are known. The
      company and the category are needed for the file names, the name for
      the client mail and the phone for the sales mail. Without the fonts
      the client document's writer raises and nothing is written; a
      document that could not be saved is mailed without an attachment. */
  function WriteAndMail(d: Session, intro: Option<string>, costs: CostSheet, timestamp: string, env: PdfEnv)
    : (r: (seq<Effect>, Option<TaskError>))
    requires EmailKey in d.fields
  {
    if CategoryKey !in d.fields then ([], Some(MissingField(CategoryKey)))
    else if CompanyKey !in d.fields then ([], Some(MissingField(CompanyKey)))
    else if !env.fontsPresent then ([], Some(FontsMissing))
    else
      var stem := ProposalsDir + "/" + SanitizeFilename(d.fields[CompanyKey]) + "_" + SanitizeFilename(ProjectName(d)) + "_" + timestamp;
      var clientPath := stem + "_client.pdf";
      var salesPath := stem + "_sales.pdf";
      var clientPdf := WriteClientPdf(clientPath, d, intro, costs);
      if NameKey !in d.fields then ([clientPdf], Some(MissingField(NameKey)))
      else
        var clientMail := MailClient(d.fields[EmailKey], "Project Proposal: " + ProjectName(d) + " | Infinite Tech", Attached(env, clientPath));
        var salesPdf := WriteSalesPdf(salesPath, d, SalesLeadPdf(costs));
        if PhoneKey !in d.fields then ([clientPdf, clientMail, salesPdf], Some(MissingField(PhoneKey)))
        else
          var salesMail := MailSales(SalesTeamEmail, "\U{1F525} HOT LEAD: " + d.fields[CompanyKey] + " - " + d.fields[CategoryKey], Attached(env, salesPath));
          ([clientPdf, clientMail, salesPdf, salesMail], None)
  }

  /** The attachment of a mail: the mail helper attaches the file only if it
      exists, and otherwise sends the mail without one. */
  function Attached(env: PdfEnv, path: string): (r: Option<string>)
    ensures r.Some? <==> env.outputWritable
    ensures r.Some? ==> r.value == path
  {
    if env.outputWritable then Some(path) else None
  }

  /** Steps 2 to 6 on a resolved source, with the country table as a
      parameter (the service uses `DeployedCountries`). */
  function Deliver(countries: CountryTable, price: Pricer, narrate: Narrator, timestamp: string, source: Row, d: Session, env: PdfEnv): (seq<Effect>, Option<TaskError>) {
    var e := WithContact(d);
    if EmailKey !in e.fields then ([], Some(MissingField(EmailKey)))
    else
      var update := UpdateLeadRecord(e.fields[EmailKey], e.fields);
      if CountryKey !in e.fields then ([update], Some(MissingField(CountryKey)))
      else match Get(countries, e.fields[CountryKey])
        case None => ([update], Some(CountryNotInTable(e.fields[CountryKey])))
        case Some(ci) =>
          if CompanySizeKey !in e.fields then ([update], Some(MissingField(CompanySizeKey)))
          else
            var costs := price(source, ci, e.fields[CompanySizeKey]);
            var (rest, error) := WriteAndMail(e, Introduction(narrate, source, e), costs, timestamp, env);
            ([update] + rest, error)
  }

  /** `generate_and_send_proposal_task`, over a country table. The task never
      raises: whatever the session, its trace is a prefix of lead update,
      client document, client mail, sales document, sales mail, the whole
      sequence exactly when it succeeds; it stops before any effect only when
      the main service or the address is missing; without the fonts it fails
      and writes no document; and its lookups leave every catalog entry as it
      was. */
  function ProposalTask(countries: CountryTable, price: Pricer, cat: Catalog, narrate: Narrator, timestamp: string, d: Session, category: string,
                        customName: Option<string>, customData: Option<Row>, env: PdfEnv): (r: TaskOutcome)
    ensures Steps(r.trace) <= FullRun
    ensures r.error.None? <==> Steps(r.trace) == FullRun
    ensures r.trace == [] <==> r.error.Some? && (r.error.value == MissingField(MainServiceKey) || r.error.value == MissingField(EmailKey))
    ensures !env.fontsPresent ==> r.error.Some? && forall i :: 0 <= i < |r.trace| ==> r.trace[i].UpdateLeadRecord?
    ensures forall x, y, z :: Get3(r.catalog.services, x, y, z) == Get3(cat.services, x, y, z)
  {
    match ResolveSource(cat, d, category, customName, customData)
    case Err(error) => TaskOutcome([], cat, Some(error))
    case Ok((source, d1, grown)) =>
      DeliverFollowsOrder(countries, price, narrate, timestamp, source, d1, env);
      LeadUpdatedFirst(countries, price, narrate, timestamp, source, d1, env);
      DeliverNeverBlamesMainService(countries, price, narrate, timestamp, source, d1, env);
      MissingFontsWriteNothing(countries, price, narrate, timestamp, source, d1, PdfEnv(false, env.outputWritable));
      var (trace, error) := Deliver(countries, price, narrate, timestamp, source, d1, env);
      TaskOutcome(trace, grown, error)
  }

  /** The task as the deployed service runs it: it succeeds exactly when the
      data source is found, every key read after it is present, with a
      country of the deployed table, and the fonts are installed. A document
      that could not be saved does not stop it. */
  function ServiceProposalTask(cat: Catalog, narrate: Narrator, timestamp: string, d: Session, category: string,
                                customName: Option<string>, customData: Option<Row>, env: PdfEnv): (r: TaskOutcome)
    ensures var source := ResolveSource(cat, d, category, customName, customData);
      r.error.None? <==> source.Ok? && Completes(DeployedCountries, WithContact(source.value.1)) && env.fontsPresent
  {
    match ResolveSource(cat, d, category, customName, customData)
    case Err(_) => ProposalTask(DeployedCountries, PrepareProposalData, cat, narrate, timestamp, d, category, customName, customData, env)
    case Ok((source, d1, _)) =>
      DeliverSucceedsIff(DeployedCountries, PrepareProposalData, narrate, timestamp, source, d1, env);
      ProposalTask(DeployedCountries, PrepareProposalData, cat, narrate, timestamp, d, category, customName, customData, env)
  }

  // ---------------------------------------------------------------------
  // Properties

  /** The session keys the task indexes directly, in the order it reads them
      after the data source is chosen. */
  const RequiredAfterSource := [EmailKey, CountryKey, CompanySizeKey, CategoryKey, CompanyKey, NameKey, PhoneKey]

  /** Whether the resolved session lets every step run. */
  predicate Completes(countries: CountryTable, d: Session) {
    (forall k :: k in RequiredAfterSource ==> k in d.fields)
    && d.fields[CountryKey] in Keys(countries)
  }

  lemma WriteAndMailSteps(d: Session, intro: Option<string>, costs: CostSheet, timestamp: string, env: PdfEnv)
    requires EmailKey in d.fields
    ensures var (trace, error) := WriteAndMail(d, intro, costs, timestamp, env);
      Steps(trace) <= FullRun[1..] &&
      (error.None? <==> CategoryKey in d.fields && CompanyKey in d.fields && NameKey in d.fields && PhoneKey in d.fields && env.fontsPresent) &&
      (error.None? ==> Steps(trace) == FullRun[1..]) &&
      (error.Some? ==> error.value == FontsMissing || (error.value.MissingField? && error.value.key in {CategoryKey, CompanyKey, NameKey, PhoneKey})) &&
      (!env.fontsPresent ==> trace == [])
  {
    var (trace, error) := WriteAndMail(d, intro, costs, timestamp, env);
    assert FullRun[1..] == [ClientPdf, ClientMail, SalesPdf, SalesMail];
  }

  /** Prefixing the lead update to a trace prefixes its step. */
  lemma StepsAfterUpdate(update: Effect, rest: seq<Effect>)
    requires update.UpdateLeadRecord?
    ensures Steps([update] + rest) == [LeadUpdate] + Steps(rest)
    ensures Steps(rest) <= FullRun[1..] ==> Steps([update] + rest) <= FullRun
    ensures Steps([update] + rest) == FullRun <==> Steps(rest) == FullRun[1..]
  {
    assert Steps([update] + rest) == [LeadUpdate] + Steps(rest);
    assert FullRun == [LeadUpdate] + FullRun[1..];
  }

  /** The trace always follows the fixed order and stops at the first
      failure: it is a prefix of lead update, client document, client mail,
      sales document, sales mail, and the whole sequence exactly when the task
      succeeds. */
  lemma DeliverFollowsOrder(countries: CountryTable, price: Pricer, narrate: Narrator, timestamp: string, source: Row, d: Session, env: PdfEnv)
    ensures var (trace, error) := Deliver(countries, price, narrate, timestamp, source, d, env);
      Steps(trace) <= FullRun
      && (error.None? <==> Steps(trace) == FullRun)
  {
    var e := WithContact(d);
    var r := Deliver(countries, price, narrate, timestamp, source, d, env);
    if EmailKey !in e.fields {
      assert r.0 == [];
    } else {
      var update := UpdateLeadRecord(e.fields[EmailKey], e.fields);
      StepsAfterUpdate(update, []);
      if CountryKey !in e.fields || Get(countries, e.fields[CountryKey]).None? || CompanySizeKey !in e.fields {
        assert r.0 == [update] && r.1.Some?;
        assert Steps([update] + []) != FullRun;
      } else {
        var ci := Get(countries, e.fields[CountryKey]).value;
        var costs := price(source, ci, e.fields[CompanySizeKey]);
        var w := WriteAndMail(e, Introduction(narrate, source, e), costs, timestamp, env);
        WriteAndMailSteps(e, Introduction(narrate, source, e), costs, timestamp, env);
        assert r == ([update] + w.0, w.1);
        StepsAfterUpdate(update, w.0);
      }
    }
  }

  /** `Completes`, key by key. */
  lemma CompletesSpelledOut(countries: CountryTable, e: Session)
    ensures Completes(countries, e) <==>
      EmailKey in e.fields && CountryKey in e.fields && Get(countries, e.fields[CountryKey]).Some?
      && CompanySizeKey in e.fields && CategoryKey in e.fields && CompanyKey in e.fields
      && NameKey in e.fields && PhoneKey in e.fields
  {
    assert RequiredAfterSource == [EmailKey, CountryKey, CompanySizeKey, CategoryKey, CompanyKey, NameKey, PhoneKey];
    if CountryKey in e.fields {
      assert Get(countries, e.fields[CountryKey]).Some? <==> e.fields[CountryKey] in Keys(countries);
    }
    if !Completes(countries, e) && EmailKey in e.fields && CountryKey in e.fields && CompanySizeKey in e.fields
       && CategoryKey in e.fields && CompanyKey in e.fields && NameKey in e.fields && PhoneKey in e.fields {
      assert forall k :: k in RequiredAfterSource ==> k in e.fields;
    }
  }

  /** The task succeeds exactly when every key it reads is present, the
      country is in the table and the fonts are installed; whether the
      documents could be saved does not matter. */
  lemma DeliverSucceedsIff(countries: CountryTable, price: Pricer, narrate: Narrator, timestamp: string, source: Row, d: Session, env: PdfEnv)
    ensures Deliver(countries, price, narrate, timestamp, source, d, env).1.None? <==> Completes(countries, WithContact(d)) && env.fontsPresent
  {
    var e := WithContact(d);
    var r := Deliver(countries, price, narrate, timestamp, source, d, env);
    CompletesSpelledOut(countries, e);
    if EmailKey in e.fields && CountryKey in e.fields && Get(countries, e.fields[CountryKey]).Some? && CompanySizeKey in e.fields {
      var ci := Get(countries, e.fields[CountryKey]).value;
      var costs := price(source, ci, e.fields[CompanySizeKey]);
      var w := WriteAndMail(e, Introduction(narrate, source, e), costs, timestamp, env);
      WriteAndMailSteps(e, Introduction(narrate, source, e), costs, timestamp, env);
      assert r.1 == w.1;
    } else {
      assert r.1.Some?;
    }
  }

  /** The lead record is updated first, before anything can fail except a
      missing address, with `contact` set to the phone or "N/A"; a missing
      address is reported as such and stops the task before any effect. */
  lemma LeadUpdatedFirst(countries: CountryTable, price: Pricer, narrate: Narrator, timestamp: string, source: Row, d: Session, env: PdfEnv)
    ensures var (trace, error) := Deliver(countries, price, narrate, timestamp, source, d, env);
      (EmailKey !in d.fields <==> trace == []) &&
      (EmailKey !in d.fields <==> error == Some(MissingField(EmailKey))) &&
      (EmailKey in d.fields ==>
        trace[0] == UpdateLeadRecord(d.fields[EmailKey], d.fields[ContactKey := Field(d, PhoneKey).GetOr(NotAvailable)]))
  {
    var e := WithContact(d);
    var r := Deliver(countries, price, narrate, timestamp, source, d, env);
    if EmailKey in e.fields && CountryKey in e.fields && Get(countries, e.fields[CountryKey]).Some? && CompanySizeKey in e.fields {
      var ci := Get(countries, e.fields[CountryKey]).value;
      var costs := price(source, ci, e.fields[CompanySizeKey]);
      var w := WriteAndMail(e, Introduction(narrate, source, e), costs, timestamp, env);
      WriteAndMailSteps(e, Introduction(narrate, source, e), costs, timestamp, env);
      assert r == ([UpdateLeadRecord(e.fields[EmailKey], e.fields)] + w.0, w.1);
    }
  }

  /** The client document shows the phone (or "N/A") as the contact phone and
      the sales document goes to the sales team: on a completed run, the
      effects carry exactly these values. Each mail attaches its document
      exactly when the documents could be saved. */
  lemma CompletedRunContents(countries: CountryTable, price: Pricer, narrate: Narrator, timestamp: string, source: Row, d: Session, env: PdfEnv)
    requires Completes(countries, WithContact(d)) && env.fontsPresent
    ensures var (trace, error) := Deliver(countries, price, narrate, timestamp, source, d, env);
      |trace| == 5 &&
      trace[1].WriteClientPdf? && trace[1].session == WithContact(d) &&
      ClientContents(trace[1]).overview[3] == Line("Contact Phone:", d.fields[PhoneKey]) &&
      trace[2].MailClient? && trace[2].to == d.fields[EmailKey] &&
      trace[2].attachment == (if env.outputWritable then Some(trace[1].path) else None) &&
      trace[4].MailSales? && trace[4].to == SalesTeamEmail &&
      trace[4].attachment == (if env.outputWritable then Some(trace[3].path) else None)
  {
    var e := WithContact(d);
    var r := Deliver(countries, price, narrate, timestamp, source, d, env);
    CompletesSpelledOut(countries, e);
    var ci := Get(countries, e.fields[CountryKey]).value;
    var costs := price(source, ci, e.fields[CompanySizeKey]);
    var w := WriteAndMail(e, Introduction(narrate, source, e), costs, timestamp, env);
    assert r == ([UpdateLeadRecord(e.fields[EmailKey], e.fields)] + w.0, w.1);
    WriteAndMailContents(e, Introduction(narrate, source, e), costs, timestamp, env);
    assert FieldOrNA(e, ContactKey) == d.fields[PhoneKey];
  }

  /** The four effects after the lead update, when every key is present. */
  lemma WriteAndMailContents(d: Session, intro: Option<string>, costs: CostSheet, timestamp: string, env: PdfEnv)
    requires EmailKey in d.fields && CategoryKey in d.fields && CompanyKey in d.fields
    requires NameKey in d.fields && PhoneKey in d.fields && env.fontsPresent
    ensures var (trace, error) := WriteAndMail(d, intro, costs, timestamp, env);
      |trace| == 4 &&
      trace[0].WriteClientPdf? && ClientContents(trace[0]).overview[3] == Line("Contact Phone:", FieldOrNA(d, ContactKey)) &&
      trace[1].MailClient? && trace[1].to == d.fields[EmailKey] &&
      trace[1].attachment == (if env.outputWritable then Some(trace[0].path) else None) &&
      trace[3].MailSales? && trace[3].to == SalesTeamEmail &&
      trace[3].attachment == (if env.outputWritable then Some(trace[2].path) else None)
  {
  }

  /** The delivery steps never read the main service. */
  lemma DeliverNeverBlamesMainService(countries: CountryTable, price: Pricer, narrate: Narrator, timestamp: string, source: Row, d: Session, env: PdfEnv)
    ensures Deliver(countries, price, narrate, timestamp, source, d, env).1 != Some(MissingField(MainServiceKey))
  {
    var e := WithContact(d);
    var r := Deliver(countries, price, narrate, timestamp, source, d, env);
    if EmailKey in e.fields && CountryKey in e.fields && Get(countries, e.fields[CountryKey]).Some? && CompanySizeKey in e.fields {
      var ci := Get(countries, e.fields[CountryKey]).value;
      var costs := price(source, ci, e.fields[CompanySizeKey]);
      var w := WriteAndMail(e, Introduction(narrate, source, e), costs, timestamp, env);
      WriteAndMailSteps(e, Introduction(narrate, source, e), costs, timestamp, env);
      assert r.1 == w.1;
    }
  }

  /** Without the fonts no document is written and the task fails: the
      lead update is the only effect, and a session that would otherwise
      complete fails on the fonts. */
  lemma MissingFontsWriteNothing(countries: CountryTable, price: Pricer, narrate: Narrator, timestamp: string, source: Row, d: Session, env: PdfEnv)
    requires !env.fontsPresent
    ensures var (trace, error) := Deliver(countries, price, narrate, timestamp, source, d, env);
      error.Some? && |trace| <= 1 && (forall i :: 0 <= i < |trace| ==> trace[i].UpdateLeadRecord?) &&
      (Completes(countries, WithContact(d)) ==> |trace| == 1 && error == Some(FontsMissing))
  {
    var e := WithContact(d);
    var r := Deliver(countries, price, narrate, timestamp, source, d, env);
    CompletesSpelledOut(countries, e);
    if EmailKey in e.fields && CountryKey in e.fields && Get(countries, e.fields[CountryKey]).Some? && CompanySizeKey in e.fields {
      var ci := Get(countries, e.fields[CountryKey]).value;
      var costs := price(source, ci, e.fields[CompanySizeKey]);
      var w := WriteAndMail(e, Introduction(narrate, source, e), costs, timestamp, env);
      WriteAndMailSteps(e, Introduction(narrate, source, e), costs, timestamp, env);
      assert r == ([UpdateLeadRecord(e.fields[EmailKey], e.fields)] + w.0, w.1);
    }
  }
}
