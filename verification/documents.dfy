/** What the two PDF documents say (pdf_writer.py), as lists of labelled
    lines: the client proposal and the sales-lead summary. Layout, fonts,
    colours, the date line and the file output are not modelled. */
module Documents {
  import opened Wrappers
  import opened Text
  import opened Sessions
  import opened Numbers
  import opened Catalog
  import opened Countries
  import opened Pricing

  const NotAvailable := "N/A"
  const SalesTitle := "NEW LEAD: Client Request Summary"
  const ProposalTitle := "Personalized Development Proposal"
  const NoFeatures := "No additional features requested."
  const OthersCategory := "Others"
  const CustomServiceCategory := "Custom Service"

  datatype PdfKind = ClientProposal | SalesLead

  /** One labelled line of a document. */
  datatype Line = Line(caption: string, value: string)

  /** `user_details.get(k, 'N/A')`. */
  function FieldOrNA(s: Session, k: string): string {
    Field(s, k).GetOr(NotAvailable)
  }

  /** The page header: the sales title on the first page of a sales-lead
      document, the proposal title everywhere else. */
  function HeaderTitle(kind: PdfKind, page: nat): (title: string)
    ensures title == SalesTitle <==> kind == SalesLead && page == 1
    ensures title == ProposalTitle <==> !(kind == SalesLead && page == 1)
  {
    assert |SalesTitle| != |ProposalTitle|;
    if page == 1 && kind == SalesLead then SalesTitle else ProposalTitle
  }

  /** The client document's project line: "Others (<custom name>)" when a
      custom name is set and the category is one of the two placeholder
      categories; otherwise the category, or "N/A". */
  function ProjectDisplayName(s: Session): (name: string)
    ensures Truthy(s, CustomNameKey) && FieldOrNA(s, CategoryKey) in {OthersCategory, CustomServiceCategory}
      ==> name == "Others (" + s.fields[CustomNameKey] + ")"
    ensures !(Truthy(s, CustomNameKey) && FieldOrNA(s, CategoryKey) in {OthersCategory, CustomServiceCategory})
      ==> name == FieldOrNA(s, CategoryKey)
  {
    var category := FieldOrNA(s, CategoryKey);
    if Truthy(s, CustomNameKey) && category in {OthersCategory, CustomServiceCategory}
    then "Others (" + s.fields[CustomNameKey] + ")"
    else category
  }

  /** The sales document's request line: the custom name when it is set and
      non-empty, else the category, else "N/A"; never in parentheses. */
  function SalesProjectName(s: Session): (name: string)
    ensures Truthy(s, CustomNameKey) ==> name == s.fields[CustomNameKey]
    ensures !Truthy(s, CustomNameKey) ==> name == FieldOrNA(s, CategoryKey)
  {
    if Truthy(s, CustomNameKey) then s.fields[CustomNameKey] else FieldOrNA(s, CategoryKey)
  }

  /** The two documents name the project consistently: the client line either
      wraps the sales line as "Others (...)", or both show the category; the
      lines differ in content only when a custom name is set alongside a
      category that is not a placeholder. */
  lemma ProjectNamesAgree(s: Session)
    ensures ProjectDisplayName(s) == "Others (" + SalesProjectName(s) + ")"
      || ProjectDisplayName(s) == FieldOrNA(s, CategoryKey)
    ensures !Truthy(s, CustomNameKey) ==> ProjectDisplayName(s) == SalesProjectName(s)
    ensures Truthy(s, CustomNameKey) && FieldOrNA(s, CategoryKey) !in {OthersCategory, CustomServiceCategory}
      ==> ProjectDisplayName(s) == FieldOrNA(s, CategoryKey) && SalesProjectName(s) == s.fields[CustomNameKey]
  {
  }

  /** The service-category line: the main service (or "N/A"), followed by
      " > <sub-category>" only for a real sub-category. */
  function ServiceCategoryLine(s: Session): (line: string)
    ensures StartsWith(line, FieldOrNA(s, MainServiceKey))
    ensures Truthy(s, SubCategoryKey) && s.fields[SubCategoryKey] != "_default"
      ==> line == FieldOrNA(s, MainServiceKey) + " > " + s.fields[SubCategoryKey]
    ensures !(Truthy(s, SubCategoryKey) && s.fields[SubCategoryKey] != "_default")
      ==> line == FieldOrNA(s, MainServiceKey)
  {
    var main := FieldOrNA(s, MainServiceKey);
    if Truthy(s, SubCategoryKey) && s.fields[SubCategoryKey] != "_default"
    then
      assert (main + " > " + s.fields[SubCategoryKey])[..|main|] == main;
      main + " > " + s.fields[SubCategoryKey]
    else
      assert main[..|main|] == main;
      main
  }

  /** A `_default` sub-category reads exactly like no sub-category at all. */
  lemma DefaultSubCategoryIsSilent(s: Session)
    ensures ServiceCategoryLine(SetField(s, SubCategoryKey, "_default"))
      == ServiceCategoryLine(RemoveField(s, SubCategoryKey))
  {
    assert Field(SetField(s, SubCategoryKey, "_default"), MainServiceKey) == Field(s, MainServiceKey);
    assert Field(RemoveField(s, SubCategoryKey), MainServiceKey) == Field(s, MainServiceKey);
  }

  /** The client-notes paragraph: the stored description, or the
      no-features sentence, in double quotes. */
  function ClientNotes(s: Session): (notes: string)
    ensures |notes| >= 2 && notes[0] == '"' && notes[|notes| - 1] == '"'
    ensures notes[1..|notes| - 1] == Field(s, DescriptionKey).GetOr(NoFeatures)
  {
    var description := Field(s, DescriptionKey).GetOr(NoFeatures);
    var notes := "\"" + description + "\"";
    assert notes[1..|notes| - 1] == description;
    notes
  }

  /** The cost table: the breakdown items in order, then exactly the
      subtotal, the volume discount labelled with its rate, and the final
      total. */
  function CostTable(sheet: CostSheet): (rows: seq<Line>)
    ensures |rows| == |sheet.breakdown| + 3
    ensures forall i :: 0 <= i < |sheet.breakdown| ==>
      rows[i] == Line(sheet.breakdown[i].item, sheet.breakdown[i].cost)
    ensures var n := |sheet.breakdown|;
      rows[n] == Line("Subtotal", sheet.subtotal)
      && rows[n + 1] == Line("Volume Discount (" + sheet.discountRate + ")", sheet.discount)
      && rows[n + 2] == Line("Final Estimated Total", sheet.finalTotal)
  {
    seq(|sheet.breakdown|, i requires 0 <= i < |sheet.breakdown| => Line(sheet.breakdown[i].item, sheet.breakdown[i].cost))
    + [Line("Subtotal", sheet.subtotal),
       Line("Volume Discount (" + sheet.discountRate + ")", sheet.discount),
       Line("Final Estimated Total", sheet.finalTotal)]
  }

  /** For a sheet from the pricing rules the table has nine rows: the six
      cost components by name, then the three totals, the discount labelled
      with the company-size tier's percentage. */
  lemma ProposalCostTable(row: Row, country: CountryInfo, sizeLabel: string)
    ensures var rows := CostTable(PrepareProposalData(row, country, sizeLabel));
      |rows| == 9
      && (forall i :: 0 <= i < 6 ==> rows[i].caption == CostComponents[i].0)
      && rows[6].caption == "Subtotal"
      && rows[7].caption == "Volume Discount (" + PercentLabel(DiscountForCompanySize(sizeLabel)) + ")"
      && rows[8].caption == "Final Estimated Total"
  {
    var sheet := PrepareProposalData(row, country, sizeLabel);
    assert |sheet.breakdown| == 6;
  }

  /** The client overview lines after the date. */
  function ClientOverview(s: Session): (lines: seq<Line>)
    ensures |lines| == 5
    ensures lines[3] == Line("Contact Phone:", FieldOrNA(s, ContactKey))
    ensures lines[4] == Line("Project:", ProjectDisplayName(s))
  {
    [Line("Company:", FieldOrNA(s, CompanyKey)),
     Line("Contact Person:", FieldOrNA(s, NameKey)),
     Line("Email:", FieldOrNA(s, EmailKey)),
     Line("Contact Phone:", FieldOrNA(s, ContactKey)),
     Line("Project:", ProjectDisplayName(s))]
  }

  /** The client document: header, overview, the introduction text, the
      cost table. */
  datatype ClientDocument = ClientDocument(title: string, overview: seq<Line>, introduction: string, costs: seq<Line>)

  /** `create_proposal_pdf`, without layout. The introduction is the
      generated text's `introduction` entry, or empty. */
  function ProposalDocument(s: Session, introduction: Option<string>, sheet: CostSheet): (d: ClientDocument)
    ensures d.title == ProposalTitle
    ensures d.introduction == introduction.GetOr("")
    ensures d.overview == ClientOverview(s) && d.costs == CostTable(sheet)
  {
    ClientDocument(HeaderTitle(ClientProposal, 1), ClientOverview(s), introduction.GetOr(""), CostTable(sheet))
  }

  /** The session keys of the sales document's client section, in order. */
  const ClientSectionKeys := [NameKey, CompanyKey, EmailKey, PhoneKey, CompanySizeKey, CountryKey]

  /** The sales document's detail rows. */
  function SalesDetails(s: Session, sheet: CostSheet): (lines: seq<Line>)
    ensures |lines| == 10
    ensures forall i :: 0 <= i < 6 ==> lines[i].value == FieldOrNA(s, ClientSectionKeys[i])
    ensures lines[6] == Line("Service Category:", ServiceCategoryLine(s))
    ensures lines[7] == Line("Specific Request:", SalesProjectName(s))
    ensures lines[8] == Line("Stated Budget:", FieldOrNA(s, BudgetKey))
    ensures lines[9] == Line("Estimated Total:", sheet.finalTotal)
  {
    [Line("Contact Person:", FieldOrNA(s, NameKey)),
     Line("Company Name:", FieldOrNA(s, CompanyKey)),
     Line("Email Address:", FieldOrNA(s, EmailKey)),
     Line("Phone Number:", FieldOrNA(s, PhoneKey)),
     Line("Company Size:", FieldOrNA(s, CompanySizeKey)),
     Line("Country:", FieldOrNA(s, CountryKey)),
     Line("Service Category:", ServiceCategoryLine(s)),
     Line("Specific Request:", SalesProjectName(s)),
     Line("Stated Budget:", FieldOrNA(s, BudgetKey)),
     Line("Estimated Total:", sheet.finalTotal)]
  }

  datatype SalesDocument = SalesDocument(title: string, heading: string, details: seq<Line>, notes: string)

  /** `create_sales_lead_pdf`, without layout. */
  function SalesLeadDocument(s: Session, sheet: CostSheet): (d: SalesDocument)
    ensures d.title == SalesTitle
    ensures d.heading == "New Lead Summary: " + FieldOrNA(s, CompanyKey)
    ensures d.details == SalesDetails(s, sheet) && d.notes == ClientNotes(s)
  {
    SalesDocument(HeaderTitle(SalesLead, 1), "New Lead Summary: " + FieldOrNA(s, CompanyKey), SalesDetails(s, sheet), ClientNotes(s))
  }

  /** A detail value is "N/A" only when the field is missing or is itself
      "N/A": the default never hides a stored value. */
  lemma DefaultsOnlyForMissing(s: Session, sheet: CostSheet, i: nat)
    requires i < 6
    ensures SalesDetails(s, sheet)[i].value == NotAvailable
      <==> ClientSectionKeys[i] !in s.fields || s.fields[ClientSectionKeys[i]] == NotAvailable
  {
  }
}
