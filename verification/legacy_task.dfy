/** The first version's proposal task (main.py). It runs the same five steps
    as the deployed one but is stricter: a category the catalog lacks, an
    empty generated text or missing mail credentials stop it. The file names
    replace spaces and slashes instead of sanitising, and carry only the
    date. Any error stops the task and is swallowed. */
module LegacyTask {
  import opened Wrappers
  import opened Text
  import opened Assoc
  import opened Catalog
  import opened Countries
  import opened Pricing
  import opened Sessions
  import opened Documents
  import opened Effects

  const SalesTeamEmail := "partha@infinitetechai.com"
  const ProposalsDir := "proposals"

  /** The project slug: spaces and slashes become underscores. */
  function Slug(name: string): (r: string)
    ensures |r| == |name|
    ensures forall i :: 0 <= i < |name| ==> r[i] == (if name[i] == ' ' || name[i] == '/' then '_' else name[i])
  {
    ReplaceChar(ReplaceChar(name, ' ', '_'), '/', '_')
  }

  /** A slug holds no space and no slash, so the slug on its own adds no
      directory level to the file name, and slugging it again changes
      nothing. The company part of the path is only rid of spaces (see
      `ClientPath`), so the path as a whole is not confined by this. */
  lemma SlugIsPathSafe(name: string)
    ensures ' ' !in Slug(name) && '/' !in Slug(name)
    ensures Slug(Slug(name)) == Slug(name)
  {
    var once := Slug(name);
    assert forall i :: 0 <= i < |once| ==> once[i] != ' ' && once[i] != '/';
    assert Slug(once) == once;
  }

  /** Step 1, the data source: the custom estimate (renaming the category),
      or the catalog row of the main service, sub-category (default
      `_default`) and category. A category the catalog lacks stops the task;
      the lookup's empty levels stay in the catalog either way. */
  function ResolveSource(cat: Catalog, d: Session, category: string, customName: Option<string>, customData: Option<Row>)
    : (r: (Result<(Row, Session), TaskError>, Catalog))
    ensures UsesCustom(customName, customData) ==>
      r == (Ok((customData.value, SetField(d, CategoryKey, customName.value))), cat)
    ensures !UsesCustom(customName, customData) && MainServiceKey !in d.fields ==>
      r == (Err(MissingField(MainServiceKey)), cat)
    ensures !UsesCustom(customName, customData) && MainServiceKey in d.fields ==>
      var main := d.fields[MainServiceKey];
      var sub := Field(d, SubCategoryKey).GetOr(DefaultSub);
      (match Get3(cat.services, main, sub, category)
       case Some(row) => r.0 == Ok((row, d))
       case None => r.0 == Err(CatalogMiss(main, sub, category)))
      && main in Keys(r.1.services)
      && (forall x, y, z :: Get3(r.1.services, x, y, z) == Get3(cat.services, x, y, z))
  {
    if UsesCustom(customName, customData) then (Ok((customData.value, SetField(d, CategoryKey, customName.value))), cat)
    else if MainServiceKey !in d.fields then (Err(MissingField(MainServiceKey)), cat)
    else
      var main := d.fields[MainServiceKey];
      var sub := Field(d, SubCategoryKey).GetOr(DefaultSub);
      var (found, grown) := Lookup(cat, main, sub, category);
      match found
      case Some(row) => (Ok((row, d)), grown)
      case None => (Err(CatalogMiss(main, sub, category)), grown)
  }

  /** The client document's path: company and slug, then the date. */
  function ClientPath(company: string, category: string, date: string): string {
    ProposalsDir + "/" + ReplaceChar(company, ' ', '_') + "_" + Slug(category) + "_" + date + ".pdf"
  }

  /** The sales summary's path: company and date only. */
  function SalesPath(company: string, date: string): string {
    ProposalsDir + "/Lead_Summary_" + ReplaceChar(company, ' ', '_') + "_" + date + ".pdf"
  }

  /** Steps 4 to 6. Without the fonts the client document's writer raises
      and nothing is written. The mail call raises when the credentials are
      missing, and then when the client document was never saved (it opens
      the file to attach it); either stops the task after the client
      document. The sales document's content is unknown: the function that
      writes it is not in pdf_writer.py. */
  function WriteAndMail(e: Session, intro: Option<string>, costs: CostSheet, date: string, mailConfigured: bool, env: PdfEnv)
    : (r: (seq<Effect>, Option<TaskError>))
    requires EmailKey in e.fields
  {
    if CategoryKey !in e.fields then ([], Some(MissingField(CategoryKey)))
    else if CompanyKey !in e.fields then ([], Some(MissingField(CompanyKey)))
    else if !env.fontsPresent then ([], Some(FontsMissing))
    else
      var category := e.fields[CategoryKey];
      var company := e.fields[CompanyKey];
      var clientPdf := WriteClientPdf(ClientPath(company, category, date), e, intro, costs);
      if NameKey !in e.fields then ([clientPdf], Some(MissingField(NameKey)))
      else if !mailConfigured then ([clientPdf], Some(MailNotConfigured))
      else if !env.outputWritable then ([clientPdf], Some(AttachmentNotSaved(ClientPath(company, category, date))))
      else
        var clientMail := MailClient(e.fields[EmailKey], "Your Personalized Proposal from Infinite Tech for " + category,
                                     Some(ClientPath(company, category, date)));
        var salesPdf := WriteSalesPdf(SalesPath(company, date), e, LeadSummaryPdf);
        var salesMail := MailSales(SalesTeamEmail, "New Chatbot Lead: " + company + " - " + category, Some(SalesPath(company, date)));
        ([clientPdf, clientMail, salesPdf, salesMail], None)
  }

  /** Whether the generated text can be used: present and non-empty. */
  predicate HasText(narrate: Narrator, source: Row, e: Session) {
    narrate(source, Field(e, CategoryKey)).Some? && |narrate(source, Field(e, CategoryKey)).value| > 0
  }

  /** The introduction the client document receives. */
  function IntroOf(narrate: Narrator, source: Row, e: Session): Option<string>
    requires HasText(narrate, source, e)
  {
    var text := narrate(source, Field(e, CategoryKey)).value;
    if "introduction" in text then Some(text["introduction"]) else None
  }

  /** Steps 3 to 6, after the lead is recorded: price, generate the text
      (nothing generated stops the task), write and mail. */
  function Proceed(countries: CountryTable, price: Pricer, narrate: Narrator, mailConfigured: bool, date: string, env: PdfEnv, source: Row, e: Session)
    : (r: (seq<Effect>, Option<TaskError>))
    requires EmailKey in e.fields
  {
    if CountryKey !in e.fields then ([], Some(MissingField(CountryKey)))
    else match Get(countries, e.fields[CountryKey])
      case None => ([], Some(CountryNotInTable(e.fields[CountryKey])))
      case Some(ci) =>
        if CompanySizeKey !in e.fields then ([], Some(MissingField(CompanySizeKey)))
        else if !HasText(narrate, source, e) then ([], Some(NoProposalText))
        else
          WriteAndMail(e, IntroOf(narrate, source, e), price(source, ci, e.fields[CompanySizeKey]), date, mailConfigured, env)
  }

  /** Steps 2 to 6 on a resolved source: record the lead, then proceed. */
  function Deliver(countries: CountryTable, price: Pricer, narrate: Narrator, mailConfigured: bool, date: string, env: PdfEnv, source: Row, d: Session)
    : (seq<Effect>, Option<TaskError>)
  {
    var e := WithContact(d);
    if EmailKey !in e.fields then ([], Some(MissingField(EmailKey)))
    else
      var rest := Proceed(countries, price, narrate, mailConfigured, date, env, source, e);
      ([UpdateLeadRecord(e.fields[EmailKey], e.fields)] + rest.0, rest.1)
  }

  /** `generate_and_send_proposal_task` of the first version, over a country
      table. The task never raises: whatever the session, its trace is a
      prefix of the fixed order, the whole of it exactly when it succeeds;
      without mail credentials, or with a document that could not be saved,
      nothing is mailed; without the fonts no document is written; and its
      lookups leave every catalog entry as it was. */
  function ProposalTask(countries: CountryTable, price: Pricer, cat: Catalog, narrate: Narrator, mailConfigured: bool, date: string, env: PdfEnv,
                        d: Session, category: string, customName: Option<string>, customData: Option<Row>): (r: TaskOutcome)
    ensures Steps(r.trace) <= FullRun
    ensures r.error.None? <==> Steps(r.trace) == FullRun
    ensures !mailConfigured || !env.outputWritable ==> forall i :: 0 <= i < |r.trace| ==> !r.trace[i].MailClient? && !r.trace[i].MailSales?
    ensures !env.fontsPresent ==> r.error.Some? && forall i :: 0 <= i < |r.trace| ==> r.trace[i].UpdateLeadRecord?
    ensures forall x, y, z :: Get3(r.catalog.services, x, y, z) == Get3(cat.services, x, y, z)
  {
    var (source, grown) := ResolveSource(cat, d, category, customName, customData);
    match source
    case Err(error) => TaskOutcome([], grown, Some(error))
    case Ok((row, d1)) =>
      DeliverFollowsOrder(countries, price, narrate, mailConfigured, date, env, row, d1);
      UnconfiguredMailSendsNothing(countries, price, narrate, date, env, row, d1);
      UnsavedDocumentSendsNothing(countries, price, narrate, mailConfigured, date, PdfEnv(env.fontsPresent, false), row, d1);
      MissingFontsWriteNothing(countries, price, narrate, mailConfigured, date, PdfEnv(false, env.outputWritable), row, d1);
      var (trace, error) := Deliver(countries, price, narrate, mailConfigured, date, env, row, d1);
      TaskOutcome(trace, grown, error)
  }

  /** The task as the first version runs it, on its own country table: it
      succeeds exactly when the data source is found, the address is known,
      every key read after it is present with a country of that table, text
      was generated, mail is configured, the fonts are installed and the
      documents can be saved. */
  function ServiceProposalTask(cat: Catalog, narrate: Narrator, mailConfigured: bool, date: string, env: PdfEnv,
                               d: Session, category: string, customName: Option<string>, customData: Option<Row>): (r: TaskOutcome)
    ensures var source := ResolveSource(cat, d, category, customName, customData).0;
      r.error.None? <==>
        source.Ok? && EmailKey in source.value.1.fields
        && Completes(LegacyCountries, narrate, mailConfigured, env, source.value.0, WithContact(source.value.1))
  {
    var (source, _) := ResolveSource(cat, d, category, customName, customData);
    match source
    case Err(_) => ProposalTask(LegacyCountries, PrepareProposalData, cat, narrate, mailConfigured, date, env, d, category, customName, customData)
    case Ok((row, d1)) =>
      DeliverFollowsOrder(LegacyCountries, PrepareProposalData, narrate, mailConfigured, date, env, row, d1);
      ProposalTask(LegacyCountries, PrepareProposalData, cat, narrate, mailConfigured, date, env, d, category, customName, customData)
  }

  // ---------------------------------------------------------------------
  // Properties

  /** The session keys the task indexes directly after the data source is
      chosen. Unlike the deployed task it never needs the phone. */
  const RequiredAfterSource := [EmailKey, CountryKey, CompanySizeKey, CategoryKey, CompanyKey, NameKey]

  /** Whether a recorded lead lets every step run. */
  predicate Completes(countries: CountryTable, narrate: Narrator, mailConfigured: bool, env: PdfEnv, source: Row, e: Session) {
    (forall k :: k in RequiredAfterSource ==> k in e.fields)
    && e.fields[CountryKey] in Keys(countries)
    && HasText(narrate, source, e)
    && mailConfigured
    && env.fontsPresent && env.outputWritable
  }

  lemma WriteAndMailSteps(e: Session, intro: Option<string>, costs: CostSheet, date: string, mailConfigured: bool, env: PdfEnv)
    requires EmailKey in e.fields
    ensures var (trace, error) := WriteAndMail(e, intro, costs, date, mailConfigured, env);
      Steps(trace) <= FullRun[1..] &&
      (error.None? <==> CategoryKey in e.fields && CompanyKey in e.fields && NameKey in e.fields && mailConfigured
                         && env.fontsPresent && env.outputWritable) &&
      (error.None? ==> Steps(trace) == FullRun[1..]) &&
      (!mailConfigured || !env.outputWritable ==> |trace| <= 1) &&
      (!env.fontsPresent ==> trace == [])
  {
    assert FullRun[1..] == [ClientPdf, ClientMail, SalesPdf, SalesMail];
  }

  /** `Completes`, condition by condition. */
  lemma CompletesSpelledOut(countries: CountryTable, narrate: Narrator, mailConfigured: bool, env: PdfEnv, source: Row, e: Session)
    ensures Completes(countries, narrate, mailConfigured, env, source, e) <==>
      EmailKey in e.fields && CountryKey in e.fields && Get(countries, e.fields[CountryKey]).Some?
      && CompanySizeKey in e.fields && HasText(narrate, source, e)
      && CategoryKey in e.fields && CompanyKey in e.fields && NameKey in e.fields && mailConfigured
      && env.fontsPresent && env.outputWritable
  {
    assert RequiredAfterSource == [EmailKey, CountryKey, CompanySizeKey, CategoryKey, CompanyKey, NameKey];
    if CountryKey in e.fields {
      assert Get(countries, e.fields[CountryKey]).Some? <==> e.fields[CountryKey] in Keys(countries);
    }
    if EmailKey in e.fields && CountryKey in e.fields && CompanySizeKey in e.fields
       && CategoryKey in e.fields && CompanyKey in e.fields && NameKey in e.fields {
      assert forall k :: k in RequiredAfterSource ==> k in e.fields;
    }
  }

  /** Once priced with text in hand, the task is writing and mailing. */
  lemma ProceedReachesMail(countries: CountryTable, price: Pricer, narrate: Narrator, mailConfigured: bool, date: string, env: PdfEnv, source: Row, e: Session)
    requires EmailKey in e.fields && CountryKey in e.fields && Get(countries, e.fields[CountryKey]).Some?
    requires CompanySizeKey in e.fields && HasText(narrate, source, e)
    ensures var ci := Get(countries, e.fields[CountryKey]).value;
      Proceed(countries, price, narrate, mailConfigured, date, env, source, e)
      == WriteAndMail(e, IntroOf(narrate, source, e), price(source, ci, e.fields[CompanySizeKey]), date, mailConfigured, env)
  {
  }

  /** Everything after the lead update follows the fixed order. */
  lemma ProceedSteps(countries: CountryTable, price: Pricer, narrate: Narrator, mailConfigured: bool, date: string, env: PdfEnv, source: Row, e: Session)
    requires EmailKey in e.fields
    ensures var (rest, error) := Proceed(countries, price, narrate, mailConfigured, date, env, source, e);
      Steps(rest) <= FullRun[1..] &&
      (error.None? <==> Steps(rest) == FullRun[1..]) &&
      (error.None? <==> Completes(countries, narrate, mailConfigured, env, source, e)) &&
      (!mailConfigured || !env.outputWritable ==> |rest| <= 1) &&
      (!env.fontsPresent ==> rest == [])
  {
    var r := Proceed(countries, price, narrate, mailConfigured, date, env, source, e);
    CompletesSpelledOut(countries, narrate, mailConfigured, env, source, e);
    if CountryKey in e.fields && Get(countries, e.fields[CountryKey]).Some? && CompanySizeKey in e.fields
       && HasText(narrate, source, e) {
      var ci := Get(countries, e.fields[CountryKey]).value;
      var costs := price(source, ci, e.fields[CompanySizeKey]);
      ProceedReachesMail(countries, price, narrate, mailConfigured, date, env, source, e);
      WriteAndMailSteps(e, IntroOf(narrate, source, e), costs, date, mailConfigured, env);
    } else {
      assert r.0 == [] && r.1.Some?;
      assert Steps(r.0) == [];
      assert FullRun[1..] != [];
    }
  }

  /** The trace is a prefix of lead update, client document, client mail,
      sales document, sales mail; the whole sequence exactly when the task
      succeeds, and it succeeds exactly when every key it reads is present,
      the country is in the table, text was generated, mail is configured,
      the fonts are installed and the documents can be saved. */
  lemma DeliverFollowsOrder(countries: CountryTable, price: Pricer, narrate: Narrator, mailConfigured: bool, date: string, env: PdfEnv, source: Row, d: Session)
    ensures var (trace, error) := Deliver(countries, price, narrate, mailConfigured, date, env, source, d);
      Steps(trace) <= FullRun
      && (error.None? <==> Steps(trace) == FullRun)
      && (error.None? <==> EmailKey in d.fields && Completes(countries, narrate, mailConfigured, env, source, WithContact(d)))
  {
    var e := WithContact(d);
    var r := Deliver(countries, price, narrate, mailConfigured, date, env, source, d);
    if EmailKey in e.fields {
      var update := UpdateLeadRecord(e.fields[EmailKey], e.fields);
      var rest := Proceed(countries, price, narrate, mailConfigured, date, env, source, e);
      ProceedSteps(countries, price, narrate, mailConfigured, date, env, source, e);
      assert r == ([update] + rest.0, rest.1);
      assert Steps([update] + rest.0) == [LeadUpdate] + Steps(rest.0);
      assert FullRun == [LeadUpdate] + FullRun[1..];
    } else {
      assert r.0 == [];
    }
  }

  /** The lead is recorded first, with `contact` set to the phone or "N/A",
      whatever fails later; only a missing address stops the task before. */
  lemma LeadUpdatedFirst(countries: CountryTable, price: Pricer, narrate: Narrator, mailConfigured: bool, date: string, env: PdfEnv, source: Row, d: Session)
    ensures var (trace, error) := Deliver(countries, price, narrate, mailConfigured, date, env, source, d);
      (EmailKey !in d.fields <==> trace == []) &&
      (EmailKey in d.fields ==>
        trace[0] == UpdateLeadRecord(d.fields[EmailKey], d.fields[ContactKey := Field(d, PhoneKey).GetOr(NotAvailable)]))
  {
  }

  /** Nothing generated: the lead is recorded and nothing else happens. */
  lemma EmptyTextStopsAfterLead(countries: CountryTable, price: Pricer, narrate: Narrator, mailConfigured: bool, date: string, env: PdfEnv, source: Row, d: Session)
    requires EmailKey in d.fields && CountryKey in d.fields && d.fields[CountryKey] in Keys(countries)
    requires CompanySizeKey in d.fields && !HasText(narrate, source, WithContact(d))
    ensures var (trace, error) := Deliver(countries, price, narrate, mailConfigured, date, env, source, d);
      |trace| == 1 && trace[0].UpdateLeadRecord? && error == Some(NoProposalText)
  {
    var e := WithContact(d);
    assert Get(countries, e.fields[CountryKey]).Some?;
    assert Proceed(countries, price, narrate, mailConfigured, date, env, source, e) == ([], Some(NoProposalText));
  }

  /** Without mail credentials nothing is ever mailed: the task stops at
      the client document at the latest. */
  lemma UnconfiguredMailSendsNothing(countries: CountryTable, price: Pricer, narrate: Narrator, date: string, env: PdfEnv, source: Row, d: Session)
    ensures var (trace, error) := Deliver(countries, price, narrate, false, date, env, source, d);
      |trace| <= 2 && forall i :: 0 <= i < |trace| ==> !trace[i].MailClient? && !trace[i].MailSales?
  {
    var r := Deliver(countries, price, narrate, false, date, env, source, d);
    var e := WithContact(d);
    if EmailKey in e.fields {
      var rest := Proceed(countries, price, narrate, false, date, env, source, e);
      ProceedWithoutMail(countries, price, narrate, false, date, env, source, e);
      assert r.0 == [UpdateLeadRecord(e.fields[EmailKey], e.fields)] + rest.0;
    }
  }

  /** Without mail credentials, or when the client document could not be
      saved, the steps after the lead update write at most the client
      document. */
  lemma ProceedWithoutMail(countries: CountryTable, price: Pricer, narrate: Narrator, mailConfigured: bool, date: string, env: PdfEnv, source: Row, e: Session)
    requires EmailKey in e.fields
    requires !mailConfigured || !env.outputWritable
    ensures var rest := Proceed(countries, price, narrate, mailConfigured, date, env, source, e).0;
      rest == [] || (|rest| == 1 && rest[0].WriteClientPdf?)
  {
    if CountryKey in e.fields && Get(countries, e.fields[CountryKey]).Some? && CompanySizeKey in e.fields
       && HasText(narrate, source, e) {
      ProceedReachesMail(countries, price, narrate, mailConfigured, date, env, source, e);
    }
  }

  /** A client document that could not be saved stops the task at the
      client mail, which fails to open it: nothing is mailed, and at most the
      lead update and the client document happen. */
  lemma UnsavedDocumentSendsNothing(countries: CountryTable, price: Pricer, narrate: Narrator, mailConfigured: bool, date: string, env: PdfEnv, source: Row, d: Session)
    requires !env.outputWritable
    ensures var (trace, error) := Deliver(countries, price, narrate, mailConfigured, date, env, source, d);
      |trace| <= 2 && error.Some? && forall i :: 0 <= i < |trace| ==> !trace[i].MailClient? && !trace[i].MailSales?
  {
    var r := Deliver(countries, price, narrate, mailConfigured, date, env, source, d);
    var e := WithContact(d);
    DeliverFollowsOrder(countries, price, narrate, mailConfigured, date, env, source, d);
    if EmailKey in e.fields {
      var rest := Proceed(countries, price, narrate, mailConfigured, date, env, source, e);
      ProceedWithoutMail(countries, price, narrate, mailConfigured, date, env, source, e);
      assert r.0 == [UpdateLeadRecord(e.fields[EmailKey], e.fields)] + rest.0;
    }
  }

  /** Without the fonts no document is written and the task fails: the
      lead update is the only effect, and a lead that would otherwise
      complete fails on the fonts. */
  lemma MissingFontsWriteNothing(countries: CountryTable, price: Pricer, narrate: Narrator, mailConfigured: bool, date: string, env: PdfEnv, source: Row, d: Session)
    requires !env.fontsPresent
    ensures var (trace, error) := Deliver(countries, price, narrate, mailConfigured, date, env, source, d);
      error.Some? && |trace| <= 1 && (forall i :: 0 <= i < |trace| ==> trace[i].UpdateLeadRecord?) &&
      ((EmailKey in d.fields && Completes(countries, narrate, mailConfigured, PdfEnv(true, env.outputWritable), source, WithContact(d)))
        ==> error == Some(FontsMissing))
  {
    var r := Deliver(countries, price, narrate, mailConfigured, date, env, source, d);
    var e := WithContact(d);
    DeliverFollowsOrder(countries, price, narrate, mailConfigured, date, env, source, d);
    if EmailKey in e.fields {
      var rest := Proceed(countries, price, narrate, mailConfigured, date, env, source, e);
      ProceedSteps(countries, price, narrate, mailConfigured, date, env, source, e);
      assert r.0 == [UpdateLeadRecord(e.fields[EmailKey], e.fields)] + rest.0;
      if Completes(countries, narrate, mailConfigured, PdfEnv(true, env.outputWritable), source, e) {
        CompletesSpelledOut(countries, narrate, mailConfigured, PdfEnv(true, env.outputWritable), source, e);
        var ci := Get(countries, e.fields[CountryKey]).value;
        ProceedReachesMail(countries, price, narrate, mailConfigured, date, env, source, e);
      }
    }
  }

  /** A category the catalog lacks stops the task before any effect, unlike
      the deployed version's placeholder; the looked-up main service is left
      in the catalog. */
  lemma CatalogMissStops(countries: CountryTable, price: Pricer, cat: Catalog, narrate: Narrator, mailConfigured: bool, date: string, env: PdfEnv,
                         d: Session, category: string, customName: Option<string>, customData: Option<Row>)
    requires !UsesCustom(customName, customData) && MainServiceKey in d.fields
    requires Get3(cat.services, d.fields[MainServiceKey], Field(d, SubCategoryKey).GetOr(DefaultSub), category).None?
    ensures var o := ProposalTask(countries, price, cat, narrate, mailConfigured, date, env, d, category, customName, customData);
      o.trace == []
      && o.error == Some(CatalogMiss(d.fields[MainServiceKey], Field(d, SubCategoryKey).GetOr(DefaultSub), category))
      && d.fields[MainServiceKey] in Keys(o.catalog.services)
  {
  }
}
