/** What a proposal task does to the outside world, as a trace of effects,
    and why it can stop early. Both services run the same five steps in the
    same order: update the lead, write the client document, mail it to the
    client, write the sales document, mail it to the sales team. */
module Effects {
  import opened Wrappers
  import opened Catalog
  import opened Sessions
  import opened Countries
  import opened Pricing
  import opened Documents

  /** Each effect is a call the task makes and that returns, with its
      arguments: a document effect names the writer and what it is given;
      `ClientContents` and `SalesContents` say what the document shows. A
      writer swallows its own failure to save (`PdfEnv.outputWritable`), so
      its effect is recorded whether or not the file reached the disk. A
      mail carries the path it attaches, or none when it goes out without
      an attachment. */
  datatype Effect =
    | UpdateLeadRecord(email: string, details: map<string, string>)
    | WriteClientPdf(path: string, session: Session, introduction: Option<string>, costs: CostSheet)
    | MailClient(to: string, subject: string, attachment: Option<string>)
    | WriteSalesPdf(path: string, session: Session, writer: SalesWriter)
    | MailSales(to: string, subject: string, attachment: Option<string>)

  /** What the PDF writers find on the machine, shared by both documents of
      a run. `fontsPresent`: the DejaVu fonts are installed. Without them
      `setup_fonts` registers only Arial, and the first `set_font("DejaVu")`
      (the page header) raises, so the writer raises before writing
      anything. `outputWritable`: `pdf.output` can save into the proposals
      directory; when it cannot, the writer prints the error and returns
      normally, and no file exists at the path. */
  datatype PdfEnv = PdfEnv(fontsPresent: bool, outputWritable: bool)

  /** The sales document's writer: the deployed service's
      `create_sales_lead_pdf`, given the cost sheet, or the first version's
      `create_lead_summary_pdf`, which pdf_writer.py does not define. */
  datatype SalesWriter = SalesLeadPdf(costs: CostSheet) | LeadSummaryPdf

  /** What the client document shows. */
  function ClientContents(e: Effect): (doc: ClientDocument)
    requires e.WriteClientPdf?
    ensures doc == ProposalDocument(e.session, e.introduction, e.costs)
  {
    ProposalDocument(e.session, e.introduction, e.costs)
  }

  /** What the sales document shows, when its writer is known. */
  function SalesContents(e: Effect): (doc: Option<SalesDocument>)
    requires e.WriteSalesPdf?
    ensures e.writer.SalesLeadPdf? ==> doc == Some(SalesLeadDocument(e.session, e.writer.costs))
    ensures e.writer.LeadSummaryPdf? ==> doc.None?
  {
    match e.writer
    case SalesLeadPdf(costs) => Some(SalesLeadDocument(e.session, costs))
    case LeadSummaryPdf => None
  }

  datatype Step = LeadUpdate | ClientPdf | ClientMail | SalesPdf | SalesMail

  function StepOf(e: Effect): Step {
    match e
    case UpdateLeadRecord(_, _) => LeadUpdate
    case WriteClientPdf(_, _, _, _) => ClientPdf
    case MailClient(_, _, _) => ClientMail
    case WriteSalesPdf(_, _, _) => SalesPdf
    case MailSales(_, _, _) => SalesMail
  }

  function Steps(trace: seq<Effect>): (steps: seq<Step>)
    ensures |steps| == |trace|
    ensures forall i :: 0 <= i < |trace| ==> steps[i] == StepOf(trace[i])
  {
    seq(|trace|, i requires 0 <= i < |trace| => StepOf(trace[i]))
  }

  const FullRun := [LeadUpdate, ClientPdf, ClientMail, SalesPdf, SalesMail]

  /** Why a task stopped: a key indexed directly is missing, the country is
      not in the table, the catalog has no such category, the text generator
      returned nothing, the mail credentials are not configured, a writer
      raised for want of its fonts, or a mail tried to open a document that
      was never saved. */
  datatype TaskError =
    | MissingField(key: string)
    | CountryNotInTable(country: string)
    | CatalogMiss(mainService: string, subCategory: string, category: string)
    | NoProposalText
    | MailNotConfigured
    | FontsMissing
    | AttachmentNotSaved(path: string)

  /** A finished task: what it did, the catalog afterwards (lookups can add
      empty levels to it), and the error that stopped it, if any. The error
      is logged and swallowed; the caller never sees it. */
  datatype TaskOutcome = TaskOutcome(trace: seq<Effect>, catalog: Catalog, error: Option<TaskError>)

  /** Whether the request carries a usable custom estimate: both the name
      and the data present and non-empty. */
  predicate UsesCustom(customName: Option<string>, customData: Option<Row>) {
    customName.Some? && customName.value != "" && customData.Some? && |customData.value| > 0
  }

  /** The session as the lead record receives it: `contact` is the phone,
      or "N/A". */
  function WithContact(d: Session): (r: Session)
    ensures r.fields == d.fields[ContactKey := Field(d, PhoneKey).GetOr(NotAvailable)]
    ensures r.history == d.history
  {
    SetField(d, ContactKey, Field(d, PhoneKey).GetOr(NotAvailable))
  }

  /** The generated proposal text: a map of sections, or nothing. An empty
      map counts as nothing. */
  type Narrator = (Row, Option<string>) -> Option<map<string, string>>

  /** The pricing step: data source, country and company size to the cost
      sheet. The services pass `PrepareProposalData`; the ordering
      properties hold for any pricing. */
  type Pricer = (Row, CountryInfo, string) -> CostSheet
}
